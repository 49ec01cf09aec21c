/**
 * The interaction handlers of the ticket bot, over the guild's channel table:
 * opening a ticket from the category menu, claiming it, exporting its
 * transcript to the log channel and closing it. Each handler is a method of
 * `Guild` that changes the table step by step, in the order the handler
 * calls the platform, and is proved against a step function on the table
 * that the lemmas reason about.
 */
module Tickets {
  import opened Wrappers
  import opened Builtins
  import opened Registry
  import opened Topic
  import opened Platform
  import opened Transcript
  import opened Lifecycle

  const TRANSCRIPT_LOG_CHANNEL_ID: string := "LOG CANAL ID"

  const ALREADY_OPEN: string := "❗ Ya tienes un ticket abierto. Usa el ticket existente."
  const CLAIM_DENIED: string := "❌ Solo el staff puede reclamar tickets."
  const ALREADY_CLAIMED: string := "❗ Este ticket ya fue reclamado."
  const TRANSCRIPT_SENT: string := "📄 Transcript enviado al canal de registros."
  const CLOSE_DENIED: string := "❌ Solo el staff puede cerrar los tickets."
  const CLOSE_NOTICE: string := "✅ Este ticket se cerrará en 5 segundos..."

  /**
   * What the user who triggered an interaction is shown: nothing, a reply
   * only they see, a reply posted in the channel (it is then the channel's
   * newest message), or a deferred reply that is never filled in because the
   * handler failed first.
   */
  datatype Reply = Ignored | Ephemeral(content: string) | Public | Unanswered

  /** The outcome of sending a transcript to the log channel. */
  datatype Delivery = Delivered | NoLogChannel | SendFailed

  /** An interaction as the handler sees it. */
  datatype Interaction =
    | SelectMenu(customId: string, values: seq<string>, user: User)
    | ButtonPress(customId: string, channelId: string, actor: Member)

  /**
   * At most one channel per ticket name: the open handler refuses a second
   * ticket to a user who has one, so no two channels carry the same
   * `ticket-<id>` name.
   */
  ghost predicate OneTicketPerOwner(channels: map<string, Channel>)
  {
    forall a, b :: a in channels && b in channels && a != b && IsTicketName(channels[a].name)
      ==> channels[a].name != channels[b].name
  }

  /** The confirmation of a created ticket; a channel renders as its mention `<#id>`. */
  function CreatedText(channelId: string): string
  {
    "✅ ¡Tu ticket ha sido creado! <#" + channelId + ">"
  }

  /** `interaction.values[0]`, which is `undefined` (the key `"undefined"`) when nothing was picked. */
  function SelectedKey(values: seq<string>): string
  {
    if values == [] then "undefined" else values[0]
  }

  /** The table after an open: unchanged when the user has a ticket, otherwise with the new ticket added. */
  function OpenStep(channels: map<string, Channel>, guildId: string, me: User, user: User, key: string,
                    newId: string, now: string): map<string, Channel>
  {
    if HasTicket(channels, user.id) then channels
    else channels[newId := NewTicket(guildId, me, user, CategoryName(key), now)]
  }

  /** The table after a claim of `cid`: unchanged when refused, otherwise with that channel claimed. */
  function ClaimStep(channels: map<string, Channel>, guildId: string, me: User, cid: string, actor: Member,
                     now: string): map<string, Channel>
    requires cid in channels
  {
    if !IsStaff(actor) || IsClaimed(channels[cid].topic) then channels
    else channels[cid := ClaimedChannel(channels[cid], guildId, me, actor.user.id, now)]
  }

  /** Where `sendTranscript` ends: without a log channel nothing is sent. */
  function ArchiveDelivery(channels: map<string, Channel>, sendOk: bool): Delivery
  {
    if TRANSCRIPT_LOG_CHANNEL_ID !in channels then NoLogChannel
    else if sendOk then Delivered
    else SendFailed
  }

  /** The log message for a transcript of `ch`: the summary and the transcript as the attached file. */
  function LogEntry(me: User, ch: Channel, cid: string, user: User, categoryName: string, now: string): Message
  {
    Message(me, "", now, [], Some(Summary(user.id, user.tag, categoryName, ch.name, cid)),
            Some(FileText(Recent(ch.messages, TRANSCRIPT_LIMIT))))
  }

  /** The table after `sendTranscript(cid, user, categoryName)`: the log entry appended when it was delivered. */
  function ArchiveStep(channels: map<string, Channel>, me: User, cid: string, user: User, categoryName: string,
                       now: string, sendOk: bool): map<string, Channel>
    requires cid in channels
  {
    if ArchiveDelivery(channels, sendOk) == Delivered then
      var log := channels[TRANSCRIPT_LOG_CHANNEL_ID];
      channels[TRANSCRIPT_LOG_CHANNEL_ID :=
        log.(messages := log.messages + [LogEntry(me, channels[cid], cid, user, categoryName, now)])]
    else channels
  }

  /** The notice a close posts before the delay. */
  function CloseNotice(me: User, now: string): Message
  {
    Message(me, CLOSE_NOTICE, now, [], None, None)
  }

  /** The table with the close notice posted in `cid`. */
  function Noticed(channels: map<string, Channel>, me: User, cid: string, now: string): map<string, Channel>
    requires cid in channels
  {
    channels[cid := channels[cid].(messages := channels[cid].messages + [CloseNotice(me, now)])]
  }

  /**
   * The table after a close of `cid` by a staff member: the notice posted,
   * the transcript archived under its topic's category with the closer as
   * the summary's user, and the channel deleted unless the send failed
   * (which aborts the timer callback) or the delete failed (which is caught).
   */
  function CloseStep(channels: map<string, Channel>, me: User, cid: string, actor: Member, now: string,
                     sendOk: bool, deleteOk: bool): map<string, Channel>
    requires cid in channels
  {
    if !IsStaff(actor) then channels
    else
      var posted := Noticed(channels, me, cid, now);
      var archived := ArchiveStep(posted, me, cid, actor.user, CategoryOf(channels[cid].topic), now, sendOk);
      if ArchiveDelivery(posted, sendOk) != SendFailed && deleteOk then archived - {cid} else archived
  }

  /** The table after a transcript export: no staff check, no notice, no delete. */
  function ExportStep(channels: map<string, Channel>, me: User, cid: string, actor: Member, now: string,
                      sendOk: bool): map<string, Channel>
    requires cid in channels
  {
    ArchiveStep(channels, me, cid, actor.user, CategoryOf(channels[cid].topic), now, sendOk)
  }

  /** Adding a ticket for a user who has none keeps one ticket per owner. */
  lemma OpenKeepsOneTicketPerOwner(channels: map<string, Channel>, guildId: string, me: User, user: User,
                                   key: string, newId: string, now: string)
    requires OneTicketPerOwner(channels) && newId !in channels
    ensures OneTicketPerOwner(OpenStep(channels, guildId, me, user, key, newId, now))
  {
    if !HasTicket(channels, user.id) {
      var r := OpenStep(channels, guildId, me, user, key, newId, now);
      forall a, b | a in r && b in r && a != b && IsTicketName(r[a].name) ensures r[a].name != r[b].name {
        if a == newId {
          assert r[b] == channels[b];
        } else if b == newId {
          assert r[a] == channels[a];
        }
      }
    }
  }

  /** After an open the user has a ticket, whether it was there before or has just been made. */
  lemma OpenLeavesATicket(channels: map<string, Channel>, guildId: string, me: User, user: User,
                          key: string, newId: string, now: string)
    ensures HasTicket(OpenStep(channels, guildId, me, user, key, newId, now), user.id)
  {
    var r := OpenStep(channels, guildId, me, user, key, newId, now);
    if !HasTicket(channels, user.id) {
      assert r[newId].name == TicketName(user.id);
    }
  }

  /**
   * An open either finds the user's ticket and changes nothing, or adds
   * exactly one channel: `ticket-<id>` under the ticket category, with the
   * open topic, the three overwrites (everyone denied viewing, the opener
   * and the staff role with full rights) and the introduction message.
   */
  lemma OpenOutcome(channels: map<string, Channel>, guildId: string, me: User, user: User,
                    key: string, newId: string, now: string)
    requires newId !in channels
    ensures var r := OpenStep(channels, guildId, me, user, key, newId, now);
      && (HasTicket(channels, user.id) ==> r == channels)
      && (!HasTicket(channels, user.id) ==>
            && r.Keys == channels.Keys + {newId}
            && (forall k :: k in channels ==> r[k] == channels[k])
            && r[newId].name == "ticket-" + user.id
            && r[newId].topic == "Ticket de " + user.tag + " | Categoría: " + CategoryName(key)
            && r[newId].parent == Some(TICKET_CATEGORY_ID)
            && r[newId].overwrites == [ Overwrite(Some(guildId), {}, {ViewChannel}),
                                        Overwrite(Some(user.id), {ViewChannel, SendMessages, AttachFiles}, {}),
                                        Overwrite(Some(TICKET_ROLE_ID), {ViewChannel, SendMessages, AttachFiles}, {}) ]
            && r[newId].messages == [IntroMessage(me, user.id, now)])
  {
    if !HasTicket(channels, user.id) {
      var ch := NewTicket(guildId, me, user, CategoryName(key), now);
      assert OpenStep(channels, guildId, me, user, key, newId, now) == channels[newId := ch];
      assert ch.topic == OpenTopic(user.tag, CategoryName(key));
      assert ch.overwrites == OpenOverwrites(guildId, user.id);
      assert ch.name == "ticket-" + user.id;
      assert (channels[newId := ch]).Keys == channels.Keys + {newId};
    }
  }

  /** What an open adds: a ticket under the new id that reads back its category and is unclaimed. */
  lemma OpenedTicket(channels: map<string, Channel>, guildId: string, me: User, user: User,
                     key: string, newId: string, now: string)
    requires !HasTicket(channels, user.id) && SafeTag(user.tag) && !Contains(user.tag, CLAIM_MARKER)
    ensures var r := OpenStep(channels, guildId, me, user, key, newId, now);
      && newId in r && r[newId].name == TicketName(user.id)
      && CategoryOf(r[newId].topic) == CategoryName(key)
      && !IsClaimed(r[newId].topic)
      && forall k :: k in channels && k != newId ==> k in r && r[k] == channels[k]
  {
    CategoryNamesAreSafe(key);
    CategoryOfOpenTopic(user.tag, CategoryName(key));
    FreshTopicUnclaimed(user.tag, key);
  }

  lemma ClaimKeepsOneTicketPerOwner(channels: map<string, Channel>, guildId: string, me: User, cid: string,
                                    actor: Member, now: string)
    requires OneTicketPerOwner(channels) && cid in channels
    ensures OneTicketPerOwner(ClaimStep(channels, guildId, me, cid, actor, now))
  {
    var r := ClaimStep(channels, guildId, me, cid, actor, now);
    assert forall k :: k in r <==> k in channels;
    assert forall k :: k in r ==> r[k].name == channels[k].name;
  }

  /**
   * A refused claim changes nothing; an accepted one changes only the
   * claimed channel, keeps its name, appends ` | Reclamado por: <@actor>` to
   * its topic and installs exactly four overwrites: everyone denied viewing,
   * staff reading but not writing, the claimer and the recovered author with
   * full rights.
   */
  lemma ClaimOutcome(channels: map<string, Channel>, guildId: string, me: User, cid: string,
                     actor: Member, now: string)
    requires cid in channels
    ensures var r := ClaimStep(channels, guildId, me, cid, actor, now);
      && (!IsStaff(actor) || IsClaimed(channels[cid].topic) ==> r == channels)
      && (IsStaff(actor) && !IsClaimed(channels[cid].topic) ==>
            && r.Keys == channels.Keys
            && (forall k :: k in channels && k != cid ==> r[k] == channels[k])
            && r[cid].name == channels[cid].name
            && r[cid].topic == channels[cid].topic + " | Reclamado por: <@" + actor.user.id + ">"
            && IsClaimed(r[cid].topic)
            && r[cid].overwrites == [ Overwrite(Some(guildId), {}, {ViewChannel}),
                                      Overwrite(Some(TICKET_ROLE_ID), {ViewChannel}, {SendMessages}),
                                      Overwrite(Some(actor.user.id), {ViewChannel, SendMessages, AttachFiles}, {}),
                                      Overwrite(RecoverAuthor(channels[cid].overwrites, guildId),
                                                {ViewChannel, SendMessages, AttachFiles}, {}) ])
  {
    if IsStaff(actor) && !IsClaimed(channels[cid].topic) {
      var c := ClaimedChannel(channels[cid], guildId, me, actor.user.id, now);
      assert ClaimStep(channels, guildId, me, cid, actor, now) == channels[cid := c];
      ClaimedChannelIsClaimed(channels[cid], guildId, me, actor.user.id, now);
      ClaimTopicSpelled(channels[cid].topic, actor.user.id);
    }
  }

  /** A ticket is claimed at most once: after a claim, every further claim leaves the table as it is. */
  lemma SecondClaimRefused(channels: map<string, Channel>, guildId: string, me: User, cid: string,
                           first: Member, second: Member, now: string, later: string)
    requires cid in channels && IsStaff(first) && !IsClaimed(channels[cid].topic)
    ensures var once := ClaimStep(channels, guildId, me, cid, first, now);
      && once != channels
      && ClaimStep(once, guildId, me, cid, second, later) == once
  {
    var once := ClaimStep(channels, guildId, me, cid, first, now);
    ClaimedChannelIsClaimed(channels[cid], guildId, me, first.user.id, now);
    assert once[cid].topic != channels[cid].topic;
  }

  lemma ArchiveKeepsNames(channels: map<string, Channel>, me: User, cid: string, user: User,
                          categoryName: string, now: string, sendOk: bool)
    requires cid in channels
    ensures var r := ArchiveStep(channels, me, cid, user, categoryName, now, sendOk);
      && (forall k :: k in r <==> k in channels)
      && (forall k :: k in r ==> r[k].name == channels[k].name && r[k].topic == channels[k].topic)
  {
  }

  lemma ArchiveKeepsOneTicketPerOwner(channels: map<string, Channel>, me: User, cid: string, user: User,
                                      categoryName: string, now: string, sendOk: bool)
    requires OneTicketPerOwner(channels) && cid in channels
    ensures OneTicketPerOwner(ArchiveStep(channels, me, cid, user, categoryName, now, sendOk))
  {
    ArchiveKeepsNames(channels, me, cid, user, categoryName, now, sendOk);
  }

  /**
   * A delivered transcript is the newest message of the log channel: it
   * names the user, the category and the ticket, and its file holds, oldest
   * first, one line for each non-bot message among the last hundred of the
   * ticket, or the placeholder when there is none.
   */
  lemma ArchivedEntry(channels: map<string, Channel>, me: User, cid: string, user: User,
                      categoryName: string, now: string)
    requires cid in channels && TRANSCRIPT_LOG_CHANNEL_ID in channels
    ensures var r := ArchiveStep(channels, me, cid, user, categoryName, now, true);
      var ms := r[TRANSCRIPT_LOG_CHANNEL_ID].messages;
      var history := channels[cid].messages;
      && ms[..|ms| - 1] == channels[TRANSCRIPT_LOG_CHANNEL_ID].messages
      && ms[|ms| - 1].summary == Some(Summary(user.id, user.tag, categoryName, channels[cid].name, cid))
      && ms[|ms| - 1].file == Some(
           if Humans(Latest(history, TRANSCRIPT_LIMIT)) == [] then EMPTY_TRANSCRIPT
           else Join(Lines(Humans(Latest(history, TRANSCRIPT_LIMIT))), "\n"))
  {
    var history := channels[cid].messages;
    var fetched := Recent(history, TRANSCRIPT_LIMIT);
    TranscriptIsChronological(history);
    HumansReverse(Latest(history, TRANSCRIPT_LIMIT));
    ReverseReverse(Humans(Latest(history, TRANSCRIPT_LIMIT)));
    assert Humans(fetched) == Reverse(Humans(Latest(history, TRANSCRIPT_LIMIT)));
  }

  lemma CloseKeepsOneTicketPerOwner(channels: map<string, Channel>, me: User, cid: string, actor: Member,
                                    now: string, sendOk: bool, deleteOk: bool)
    requires OneTicketPerOwner(channels) && cid in channels
    ensures OneTicketPerOwner(CloseStep(channels, me, cid, actor, now, sendOk, deleteOk))
  {
    if IsStaff(actor) {
      var posted := Noticed(channels, me, cid, now);
      assert forall k :: k in posted <==> k in channels;
      assert forall k :: k in posted ==> posted[k].name == channels[k].name;
      var archived := ArchiveStep(posted, me, cid, actor.user, CategoryOf(channels[cid].topic), now, sendOk);
      ArchiveKeepsNames(posted, me, cid, actor.user, CategoryOf(channels[cid].topic), now, sendOk);
      assert OneTicketPerOwner(archived);
    }
  }

  /**
   * Closing a user's ticket, when the transcript was not lost and the delete
   * went through, leaves that user without a ticket, so they can open a new
   * one.
   */
  lemma CloseFreesOwner(channels: map<string, Channel>, me: User, cid: string, actor: Member, now: string,
                        deleteOk: bool, sendOk: bool, userId: string)
    requires OneTicketPerOwner(channels) && cid in channels && channels[cid].name == TicketName(userId)
    requires IsStaff(actor) && deleteOk && (sendOk || TRANSCRIPT_LOG_CHANNEL_ID !in channels)
    ensures !HasTicket(CloseStep(channels, me, cid, actor, now, sendOk, deleteOk), userId)
  {
    var posted := Noticed(channels, me, cid, now);
    var archived := ArchiveStep(posted, me, cid, actor.user, CategoryOf(channels[cid].topic), now, sendOk);
    ArchiveKeepsNames(posted, me, cid, actor.user, CategoryOf(channels[cid].topic), now, sendOk);
    assert IsTicketName(channels[cid].name);
    var r := CloseStep(channels, me, cid, actor, now, sendOk, deleteOk);
    assert r == archived - {cid};
    forall k | k in r ensures r[k].name != TicketName(userId) {
      assert r[k].name == channels[k].name;
    }
  }

  /** A close whose transcript send failed stops before the delete: the ticket stays, with the notice posted. */
  lemma FailedSendKeepsTicket(channels: map<string, Channel>, me: User, cid: string, actor: Member,
                              now: string, deleteOk: bool)
    requires cid in channels && IsStaff(actor) && TRANSCRIPT_LOG_CHANNEL_ID in channels
    ensures CloseStep(channels, me, cid, actor, now, false, deleteOk) == Noticed(channels, me, cid, now)
  {
  }

  /**
   * The transcript a close archives is that of the history before the
   * notice: the notice is a bot message and is filtered out, but it takes
   * one slot of the hundred fetched, so the oldest of the last hundred
   * earlier messages is no longer covered.
   */
  lemma CloseTranscript(me: User, history: seq<Message>, now: string)
    requires me.bot
    ensures Render(Recent(history + [CloseNotice(me, now)], TRANSCRIPT_LIMIT))
         == Join(Lines(Humans(Latest(history, TRANSCRIPT_LIMIT - 1))), "\n")
  {
    BotMessageTakesASlot(history, CloseNotice(me, now));
  }

  /**
   * Closing a ticket that was opened from the menu and may since have been
   * claimed files its transcript under the category picked at the open.
   */
  lemma CloseFilesOpenedCategory(channels: map<string, Channel>, me: User, cid: string, actor: Member,
                                 now: string, deleteOk: bool, tag: string, key: string, claimer: Option<string>)
    requires cid in channels && cid != TRANSCRIPT_LOG_CHANNEL_ID
    requires IsStaff(actor) && TRANSCRIPT_LOG_CHANNEL_ID in channels && SafeTag(tag)
    requires channels[cid].topic == match claimer
      case None => OpenTopic(tag, CategoryName(key))
      case Some(id) => ClaimTopic(OpenTopic(tag, CategoryName(key)), id)
    ensures var r := CloseStep(channels, me, cid, actor, now, true, deleteOk);
      TRANSCRIPT_LOG_CHANNEL_ID in r &&
      var ms := r[TRANSCRIPT_LOG_CHANNEL_ID].messages;
      && |ms| > 0 && ms[|ms| - 1].summary.Some?
      && ms[|ms| - 1].summary.value.category == CategoryName(key)
      && ms[|ms| - 1].summary.value.userId == actor.user.id
  {
    CategoryNamesAreSafe(key);
    match claimer
    case None => CategoryOfOpenTopic(tag, CategoryName(key));
    case Some(id) => CategoryOfClaimTopic(tag, CategoryName(key), id);
    CloseLogsSummary(channels, me, cid, actor, now, deleteOk);
  }

  /** A close whose send succeeds leaves, as the log's newest message, the summary of that ticket under its topic's category. */
  lemma CloseLogsSummary(channels: map<string, Channel>, me: User, cid: string, actor: Member,
                         now: string, deleteOk: bool)
    requires cid in channels && cid != TRANSCRIPT_LOG_CHANNEL_ID
    requires IsStaff(actor) && TRANSCRIPT_LOG_CHANNEL_ID in channels
    ensures var r := CloseStep(channels, me, cid, actor, now, true, deleteOk);
      TRANSCRIPT_LOG_CHANNEL_ID in r &&
      var ms := r[TRANSCRIPT_LOG_CHANNEL_ID].messages;
      && |ms| > 0
      && ms[|ms| - 1].summary
         == Some(Summary(actor.user.id, actor.user.tag, CategoryOf(channels[cid].topic), channels[cid].name, cid))
  {
    var name := CategoryOf(channels[cid].topic);
    var posted := Noticed(channels, me, cid, now);
    var archived := ArchiveStep(posted, me, cid, actor.user, name, now, true);
    var log := posted[TRANSCRIPT_LOG_CHANNEL_ID];
    var entry := LogEntry(me, posted[cid], cid, actor.user, name, now);
    assert archived == posted[TRANSCRIPT_LOG_CHANNEL_ID := log.(messages := log.messages + [entry])];
    var r := CloseStep(channels, me, cid, actor, now, true, deleteOk);
    assert r == if deleteOk then archived - {cid} else archived;
    assert TRANSCRIPT_LOG_CHANNEL_ID in r && r[TRANSCRIPT_LOG_CHANNEL_ID] == archived[TRANSCRIPT_LOG_CHANNEL_ID];
  }

  lemma ExportKeepsOneTicketPerOwner(channels: map<string, Channel>, me: User, cid: string, actor: Member,
                                     now: string, sendOk: bool)
    requires OneTicketPerOwner(channels) && cid in channels
    ensures OneTicketPerOwner(ExportStep(channels, me, cid, actor, now, sendOk))
  {
    ArchiveKeepsNames(channels, me, cid, actor.user, CategoryOf(channels[cid].topic), now, sendOk);
  }

  /** Every channel that was claimed before a step and still exists after it is still claimed. */
  predicate ClaimsKept(before: map<string, Channel>, after: map<string, Channel>)
  {
    forall k :: k in before && k in after && IsClaimed(before[k].topic) ==> IsClaimed(after[k].topic)
  }

  /** An open adds a channel under a fresh id and leaves existing channels, claimed or not, as they are. */
  lemma OpenKeepsClaims(channels: map<string, Channel>, guildId: string, me: User, user: User,
                        key: string, newId: string, now: string)
    requires newId !in channels
    ensures ClaimsKept(channels, OpenStep(channels, guildId, me, user, key, newId, now))
  {
    var r := OpenStep(channels, guildId, me, user, key, newId, now);
    forall k | k in channels && k in r && IsClaimed(channels[k].topic) ensures IsClaimed(r[k].topic) {
      assert r[k] == channels[k];
    }
  }

  /** A claim only ever turns an unclaimed channel into a claimed one. */
  lemma ClaimKeepsClaims(channels: map<string, Channel>, guildId: string, me: User, cid: string,
                         actor: Member, now: string)
    requires cid in channels
    ensures ClaimsKept(channels, ClaimStep(channels, guildId, me, cid, actor, now))
  {
    var r := ClaimStep(channels, guildId, me, cid, actor, now);
    forall k | k in channels && k in r && IsClaimed(channels[k].topic) ensures IsClaimed(r[k].topic) {
      if k == cid && r != channels {
        ClaimedChannelIsClaimed(channels[cid], guildId, me, actor.user.id, now);
      }
    }
  }

  /** Archiving a transcript leaves every topic as it was. */
  lemma ArchiveKeepsClaims(channels: map<string, Channel>, me: User, cid: string, user: User,
                           categoryName: string, now: string, sendOk: bool)
    requires cid in channels
    ensures ClaimsKept(channels, ArchiveStep(channels, me, cid, user, categoryName, now, sendOk))
  {
    ArchiveKeepsNames(channels, me, cid, user, categoryName, now, sendOk);
  }

  lemma ExportKeepsClaims(channels: map<string, Channel>, me: User, cid: string, actor: Member,
                          now: string, sendOk: bool)
    requires cid in channels
    ensures ClaimsKept(channels, ExportStep(channels, me, cid, actor, now, sendOk))
  {
    ArchiveKeepsClaims(channels, me, cid, actor.user, CategoryOf(channels[cid].topic), now, sendOk);
  }

  /** A close posts, archives and at most deletes: a claimed ticket that survives it is still claimed. */
  lemma CloseKeepsClaims(channels: map<string, Channel>, me: User, cid: string, actor: Member, now: string,
                         sendOk: bool, deleteOk: bool)
    requires cid in channels
    ensures ClaimsKept(channels, CloseStep(channels, me, cid, actor, now, sendOk, deleteOk))
  {
    if IsStaff(actor) {
      var posted := Noticed(channels, me, cid, now);
      assert forall k :: k in posted ==> k in channels && posted[k].topic == channels[k].topic;
      ArchiveKeepsNames(posted, me, cid, actor.user, CategoryOf(channels[cid].topic), now, sendOk);
    }
  }

  /**
   * Once a ticket is claimed, whatever steps keep the claims (any sequence of
   * opens, claims, exports and closes it survives), a later claim of it is
   * refused and changes nothing.
   */
  lemma ClaimedStaysRefused(before: map<string, Channel>, after: map<string, Channel>, guildId: string,
                            me: User, cid: string, actor: Member, now: string)
    requires cid in before && cid in after && IsClaimed(before[cid].topic) && ClaimsKept(before, after)
    ensures ClaimStep(after, guildId, me, cid, actor, now) == after
  {
  }

  /** The guild the bot serves: its id, the bot's own user, and its channels by id. */
  class Guild {
    const id: string
    const me: User
    var channels: map<string, Channel>

    ghost predicate Valid()
      reads this
    {
      me.bot && OneTicketPerOwner(channels)
    }

    constructor (guildId: string, bot: User, initial: map<string, Channel>)
      requires bot.bot && OneTicketPerOwner(initial)
      ensures Valid() && id == guildId && me == bot && channels == initial
    {
      id := guildId;
      me := bot;
      channels := initial;
    }

    /** The `ticket-category` menu handler. */
    method Open(user: User, key: string, newId: string, now: string) returns (reply: Reply)
      requires Valid() && newId !in channels
      modifies this
      ensures Valid()
      ensures channels == OpenStep(old(channels), id, me, user, key, newId, now)
      ensures HasTicket(old(channels), user.id) ==> channels == old(channels)
      ensures HasTicket(channels, user.id)
      ensures reply == if HasTicket(old(channels), user.id) then Ephemeral(ALREADY_OPEN)
                       else Ephemeral(CreatedText(newId))
    {
      var categoryName := CategoryName(key);
      if HasTicket(channels, user.id) {
        return Ephemeral(ALREADY_OPEN);
      }
      OpenKeepsOneTicketPerOwner(channels, id, me, user, key, newId, now);
      OpenLeavesATicket(channels, id, me, user, key, newId, now);
      channels := channels[newId := Channel(TicketName(user.id), OpenTopic(user.tag, categoryName),
                                             Some(TICKET_CATEGORY_ID), OpenOverwrites(id, user.id), [])];
      channels := channels[newId := channels[newId].(messages := [IntroMessage(me, user.id, now)])];
      reply := Ephemeral(CreatedText(newId));
    }

    /** The `ticket-claim` button handler. */
    method Claim(cid: string, actor: Member, now: string) returns (reply: Reply)
      requires Valid() && cid in channels
      modifies this
      ensures Valid()
      ensures channels == ClaimStep(old(channels), id, me, cid, actor, now)
      ensures !IsStaff(actor) || IsClaimed(old(channels)[cid].topic) ==> channels == old(channels)
      ensures IsStaff(actor) ==> IsClaimed(channels[cid].topic)
      ensures reply == if !IsStaff(actor) then Ephemeral(CLAIM_DENIED)
                       else if IsClaimed(old(channels)[cid].topic) then Ephemeral(ALREADY_CLAIMED)
                       else Public
    {
      if !IsStaff(actor) {
        return Ephemeral(CLAIM_DENIED);
      }
      var topic := channels[cid].topic;
      if Contains(topic, CLAIM_MARKER) {
        return Ephemeral(ALREADY_CLAIMED);
      }
      ClaimKeepsOneTicketPerOwner(channels, id, me, cid, actor, now);
      ClaimTopicIsClaimed(topic, actor.user.id);
      var ch := channels[cid];
      ghost var original := ch;
      ch := ch.(topic := ClaimTopic(topic, actor.user.id));
      var authorId := RecoverAuthor(ch.overwrites, id);
      ch := ch.(overwrites := ClaimOverwrites(id, actor.user.id, authorId));
      var history := ch.messages;
      match ClaimTarget(history) {
        case None =>
        case Some(k) =>
          var newRow := DisableClaim(history[k].components[0]);
          history := history[k := history[k].(components := [newRow])];
      }
      assert history == DisableClaimIn(original.messages);
      ch := ch.(messages := history + [ClaimNotice(me, actor.user.id, now)]);
      assert ch == ClaimedChannel(original, id, me, actor.user.id, now);
      channels := channels[cid := ch];
      reply := Public;
    }

    /** `sendTranscript(channel, user, categoryName, guild)`. */
    method SendTranscript(cid: string, user: User, categoryName: string, now: string, sendOk: bool)
      returns (delivery: Delivery)
      requires Valid() && cid in channels
      modifies this
      ensures Valid()
      ensures delivery == ArchiveDelivery(old(channels), sendOk)
      ensures channels == ArchiveStep(old(channels), me, cid, user, categoryName, now, sendOk)
    {
      ghost var next := ArchiveStep(channels, me, cid, user, categoryName, now, sendOk);
      ArchiveKeepsOneTicketPerOwner(channels, me, cid, user, categoryName, now, sendOk);
      if TRANSCRIPT_LOG_CHANNEL_ID !in channels {
        return NoLogChannel;
      }
      if !sendOk {
        return SendFailed;
      }
      var entry := LogEntry(me, channels[cid], cid, user, categoryName, now);
      var log := channels[TRANSCRIPT_LOG_CHANNEL_ID];
      channels := channels[TRANSCRIPT_LOG_CHANNEL_ID := log.(messages := log.messages + [entry])];
      assert channels == next;
      delivery := Delivered;
    }

    /** The `ticket-transcript` button handler. */
    method ExportTranscript(cid: string, actor: Member, now: string, sendOk: bool) returns (reply: Reply)
      requires Valid() && cid in channels
      modifies this
      ensures Valid()
      ensures channels == ExportStep(old(channels), me, cid, actor, now, sendOk)
      ensures reply == if ArchiveDelivery(old(channels), sendOk) == SendFailed then Unanswered
                       else Ephemeral(TRANSCRIPT_SENT)
    {
      var categoryName := CategoryOf(channels[cid].topic);
      var delivery := SendTranscript(cid, actor.user, categoryName, now, sendOk);
      reply := if delivery == SendFailed then Unanswered else Ephemeral(TRANSCRIPT_SENT);
    }

    /** The `ticket-close` button handler, with the delayed callback run to its end. */
    method Close(cid: string, actor: Member, now: string, sendOk: bool, deleteOk: bool) returns (reply: Reply)
      requires Valid() && cid in channels
      modifies this
      ensures Valid()
      ensures channels == CloseStep(old(channels), me, cid, actor, now, sendOk, deleteOk)
      ensures !IsStaff(actor) ==> channels == old(channels)
      ensures reply == if IsStaff(actor) then Public else Ephemeral(CLOSE_DENIED)
    {
      if !IsStaff(actor) {
        return Ephemeral(CLOSE_DENIED);
      }
      CloseKeepsOneTicketPerOwner(channels, me, cid, actor, now, sendOk, deleteOk);
      channels := channels[cid := channels[cid].(messages := channels[cid].messages + [CloseNotice(me, now)])];
      reply := Public;
      var categoryName := CategoryOf(channels[cid].topic);
      var delivery := SendTranscript(cid, actor.user, categoryName, now, sendOk);
      if delivery != SendFailed && deleteOk {
        channels := channels - {cid};
      }
    }

    /**
     * The `interactionCreate` listener: the category menu opens a ticket,
     * the three buttons run their handlers, anything else is ignored.
     */
    method Handle(i: Interaction, newId: string, now: string, sendOk: bool, deleteOk: bool) returns (reply: Reply)
      requires Valid() && newId !in channels
      requires i.ButtonPress? ==> i.channelId in channels
      modifies this
      ensures Valid()
      ensures i.SelectMenu? && i.customId == CATEGORY_MENU_ID ==>
        channels == OpenStep(old(channels), id, me, i.user, SelectedKey(i.values), newId, now)
      ensures i.ButtonPress? && i.customId == CLAIM_BUTTON_ID ==>
        channels == ClaimStep(old(channels), id, me, i.channelId, i.actor, now)
      ensures i.ButtonPress? && i.customId == TRANSCRIPT_BUTTON_ID ==>
        channels == ExportStep(old(channels), me, i.channelId, i.actor, now, sendOk)
      ensures i.ButtonPress? && i.customId == CLOSE_BUTTON_ID ==>
        channels == CloseStep(old(channels), me, i.channelId, i.actor, now, sendOk, deleteOk)
      ensures reply == Ignored <==>
        (i.SelectMenu? && i.customId != CATEGORY_MENU_ID) ||
        (i.ButtonPress? && i.customId !in {CLAIM_BUTTON_ID, TRANSCRIPT_BUTTON_ID, CLOSE_BUTTON_ID})
      ensures reply == Ignored ==> channels == old(channels)
      ensures ClaimsKept(old(channels), channels)
    {
      ghost var before := channels;
      match i {
        case SelectMenu(customId, values, user) =>
          if customId == CATEGORY_MENU_ID {
            OpenKeepsClaims(before, id, me, user, SelectedKey(values), newId, now);
            reply := Open(user, SelectedKey(values), newId, now);
          } else {
            reply := Ignored;
          }
        case ButtonPress(customId, cid, actor) =>
          if customId == CLAIM_BUTTON_ID {
            ClaimKeepsClaims(before, id, me, cid, actor, now);
            reply := Claim(cid, actor, now);
          } else if customId == TRANSCRIPT_BUTTON_ID {
            ExportKeepsClaims(before, me, cid, actor, now, sendOk);
            reply := ExportTranscript(cid, actor, now, sendOk);
          } else if customId == CLOSE_BUTTON_ID {
            CloseKeepsClaims(before, me, cid, actor, now, sendOk, deleteOk);
            reply := Close(cid, actor, now, sendOk, deleteOk);
          } else {
            reply := Ignored;
          }
      }
    }
  }
}
