/**
 * The ticket state machine on channel values: what an open creates, what a
 * claim turns a channel into, and the facts that tie the two together. The
 * handlers that apply these to the guild's channel table are in `Tickets`.
 */
module Lifecycle {
  import opened Wrappers
  import opened Builtins
  import opened Registry
  import opened Topic
  import opened Platform

  const TICKET_ROLE_ID: string := "ROL STAFF ID"
  const TICKET_CATEGORY_ID: string := "CATEGORIA ID"
  const CATEGORY_MENU_ID: string := "ticket-category"
  const CLAIM_BUTTON_ID: string := "ticket-claim"
  const CLOSE_BUTTON_ID: string := "ticket-close"
  const TRANSCRIPT_BUTTON_ID: string := "ticket-transcript"
  /** How many recent messages the claim searches for the buttons. */
  const CLAIM_SEARCH_LIMIT: nat := 10

  const FULL_ACCESS: set<Permission> := {ViewChannel, SendMessages, AttachFiles}

  /** `member.roles.cache.has(TICKET_ROLE_ID)`. */
  predicate IsStaff(actor: Member)
  {
    TICKET_ROLE_ID in actor.roles
  }

  /** The name that keys a user's ticket. */
  function TicketName(userId: string): string
  {
    "ticket-" + userId
  }

  predicate IsTicketName(name: string)
  {
    |name| >= 7 && name[..7] == "ticket-"
  }

  /** `guild.channels.cache.find(c => c.name === 'ticket-<userId>')` finds a channel. */
  predicate HasTicket(channels: map<string, Channel>, userId: string)
  {
    exists k :: k in channels && channels[k].name == TicketName(userId)
  }

  /** A Discord mention of a user. */
  function Mention(userId: string): string
  {
    "<@" + userId + ">"
  }

  /** The overwrites of a new ticket: nobody sees it but the opener and the staff role. */
  function OpenOverwrites(guildId: string, userId: string): seq<Overwrite>
  {
    [ Overwrite(Some(guildId), {}, {ViewChannel}),
      Overwrite(Some(userId), FULL_ACCESS, {}),
      Overwrite(Some(TICKET_ROLE_ID), FULL_ACCESS, {}) ]
  }

  /** The buttons of the introduction message. */
  function IntroRow(): seq<Button>
  {
    [ Button(CLAIM_BUTTON_ID, "Reclamar", Primary, false),
      Button(CLOSE_BUTTON_ID, "Cerrar", Danger, false) ]
  }

  /** The introduction message: it mentions the opener and the staff role and carries the two buttons. */
  function IntroMessage(me: User, userId: string, now: string): Message
  {
    Message(me, Mention(userId) + " <@&" + TICKET_ROLE_ID + ">", now, [IntroRow()], None, None)
  }

  /** The channel an open creates, with its introduction message posted. */
  function NewTicket(guildId: string, me: User, user: User, categoryName: string, now: string): (ch: Channel)
    ensures ch.name == TicketName(user.id) && IsTicketName(ch.name)
    ensures ch.parent == Some(TICKET_CATEGORY_ID)
  {
    var ch := Channel(TicketName(user.id), OpenTopic(user.tag, categoryName), Some(TICKET_CATEGORY_ID),
                      OpenOverwrites(guildId, user.id), [IntroMessage(me, user.id, now)]);
    assert ch.name[..7] == "ticket-";
    ch
  }

  /** A subject from whom the claim recovers the ticket's author. */
  predicate IsAuthorCandidate(o: Overwrite, guildId: string)
  {
    ViewChannel in o.allow && o.id != Some(TICKET_ROLE_ID) && o.id != Some(guildId)
  }

  /** The index of the first overwrite whose subject is an author candidate: the `find` of the claim. */
  function FirstAuthorCandidate(overwrites: seq<Overwrite>, guildId: string): (r: Option<nat>)
    ensures r.Some? ==> r.value < |overwrites| && IsAuthorCandidate(overwrites[r.value], guildId)
    ensures r.Some? ==> forall j :: 0 <= j < r.value ==> !IsAuthorCandidate(overwrites[j], guildId)
    ensures r.None? ==> forall j :: 0 <= j < |overwrites| ==> !IsAuthorCandidate(overwrites[j], guildId)
  {
    if overwrites == [] then None
    else if IsAuthorCandidate(overwrites[0], guildId) then Some(0)
    else match FirstAuthorCandidate(overwrites[1..], guildId)
      case None => None
      case Some(i) => Some(i + 1)
  }

  /** `permissionOverwrites.cache.find(po => <view allowed, not staff, not everyone>)?.id`. */
  function RecoverAuthor(overwrites: seq<Overwrite>, guildId: string): (author: Option<string>)
    ensures author.Some? ==> exists i :: 0 <= i < |overwrites| && IsAuthorCandidate(overwrites[i], guildId)
                                       && overwrites[i].id == author
                                       && forall j :: 0 <= j < i ==> !IsAuthorCandidate(overwrites[j], guildId)
    ensures (forall i :: 0 <= i < |overwrites| ==> !IsAuthorCandidate(overwrites[i], guildId)) ==> author == None
    ensures forall i :: 0 <= i < |overwrites| && IsAuthorCandidate(overwrites[i], guildId)
                        && (forall j :: 0 <= j < i ==> !IsAuthorCandidate(overwrites[j], guildId))
                        ==> author == overwrites[i].id
  {
    match FirstAuthorCandidate(overwrites, guildId)
    case None => None
    case Some(i) => overwrites[i].id
  }

  /**
   * The overwrites a claim installs: everyone still denied, the staff role
   * reading but not writing, the claimer and the recovered author with full
   * rights. `.filter(Boolean)` keeps all four entries, so the last one is
   * present even when no author was recovered.
   */
  function ClaimOverwrites(guildId: string, actorId: string, author: Option<string>): seq<Overwrite>
  {
    [ Overwrite(Some(guildId), {}, {ViewChannel}),
      Overwrite(Some(TICKET_ROLE_ID), {ViewChannel}, {SendMessages}),
      Overwrite(Some(actorId), FULL_ACCESS, {}),
      Overwrite(author, FULL_ACCESS, {}) ]
  }

  /** `ButtonBuilder.from(comp)`, disabled when it is the claim button. */
  function DisableIfClaim(b: Button): Button
  {
    if b.customId == CLAIM_BUTTON_ID then b.(disabled := true) else b
  }

  /** The rewritten first row: the claim button disabled, every other button as it was. */
  function DisableClaim(row: seq<Button>): (r: seq<Button>)
    ensures |r| == |row|
    ensures forall i :: 0 <= i < |row| && row[i].customId == CLAIM_BUTTON_ID ==> r[i] == row[i].(disabled := true)
    ensures forall i :: 0 <= i < |row| && row[i].customId != CLAIM_BUTTON_ID ==> r[i] == row[i]
  {
    if row == [] then [] else [DisableIfClaim(row[0])] + DisableClaim(row[1..])
  }

  /** Index `i` of a history is among the last `CLAIM_SEARCH_LIMIT` messages. */
  predicate InClaimWindow(history: seq<Message>, i: int)
  {
    0 <= i < |history| && |history| - CLAIM_SEARCH_LIMIT <= i
  }

  predicate HasComponents(m: Message)
  {
    |m.components| > 0
  }

  /** `msgs.find(m => m.components.length)`, over messages newest first. */
  function FirstWithComponents(ms: seq<Message>): (r: Option<nat>)
    ensures r.Some? ==> r.value < |ms| && HasComponents(ms[r.value])
    ensures r.Some? ==> forall j :: 0 <= j < r.value ==> !HasComponents(ms[j])
    ensures r.None? ==> forall j :: 0 <= j < |ms| ==> !HasComponents(ms[j])
  {
    if ms == [] then None
    else if HasComponents(ms[0]) then Some(0)
    else match FirstWithComponents(ms[1..])
      case None => None
      case Some(i) => Some(i + 1)
  }

  /**
   * The history index of the message whose buttons a claim rewrites: the
   * newest of the last ten messages that has components.
   */
  function ClaimTarget(history: seq<Message>): (k: Option<nat>)
    ensures k.Some? ==> InClaimWindow(history, k.value) && HasComponents(history[k.value])
    ensures k.Some? ==> forall i :: k.value < i < |history| ==> !HasComponents(history[i])
    ensures k.None? ==> forall i :: InClaimWindow(history, i) ==> !HasComponents(history[i])
  {
    var found := FirstWithComponents(Recent(history, CLAIM_SEARCH_LIMIT));
    if found.None? then
      NoneInWindow(history);
      None
    else
      NewestInWindow(history, found.value);
      Some(|history| - 1 - found.value)
  }

  lemma NoneInWindow(history: seq<Message>)
    requires FirstWithComponents(Recent(history, CLAIM_SEARCH_LIMIT)).None?
    ensures forall i :: InClaimWindow(history, i) ==> !HasComponents(history[i])
  {
    var recent := Recent(history, CLAIM_SEARCH_LIMIT);
    forall i | InClaimWindow(history, i) ensures !HasComponents(history[i]) {
      var j := |history| - 1 - i;
      assert 0 <= j < |recent|;
      assert recent[j] == history[i];
    }
  }

  lemma NewestInWindow(history: seq<Message>, j: nat)
    requires FirstWithComponents(Recent(history, CLAIM_SEARCH_LIMIT)) == Some(j)
    ensures j < |history| && InClaimWindow(history, |history| - 1 - j)
    ensures HasComponents(history[|history| - 1 - j])
    ensures forall i :: |history| - 1 - j < i < |history| ==> !HasComponents(history[i])
  {
    var recent := Recent(history, CLAIM_SEARCH_LIMIT);
    assert recent[j] == history[|history| - 1 - j];
    forall i | |history| - 1 - j < i < |history| ensures !HasComponents(history[i]) {
      var l := |history| - 1 - i;
      assert 0 <= l < j;
      assert recent[l] == history[i];
    }
  }

  /** `msg.edit({ components: [newRow] })` on the claim target, if there is one. */
  function DisableClaimIn(history: seq<Message>): (r: seq<Message>)
    ensures |r| == |history|
    ensures forall i :: 0 <= i < |history| && ClaimTarget(history) != Some(i) ==> r[i] == history[i]
  {
    match ClaimTarget(history)
    case None => history
    case Some(k) => history[k := history[k].(components := [DisableClaim(history[k].components[0])])]
  }

  /** The public confirmation of a claim, posted by the bot. */
  function ClaimNotice(me: User, actorId: string, now: string): Message
  {
    Message(me, "🎟️ Ticket reclamado por " + Mention(actorId) + ".", now, [], None, None)
  }

  /** The channel after a successful claim by `actorId`. */
  function ClaimedChannel(ch: Channel, guildId: string, me: User, actorId: string, now: string): Channel
  {
    ch.(topic := ClaimTopic(ch.topic, actorId),
        overwrites := ClaimOverwrites(guildId, actorId, RecoverAuthor(ch.overwrites, guildId)),
        messages := DisableClaimIn(ch.messages) + [ClaimNotice(me, actorId, now)])
  }

  /** A claim marks the channel claimed and keeps its name and parent. */
  lemma ClaimedChannelIsClaimed(ch: Channel, guildId: string, me: User, actorId: string, now: string)
    ensures var c := ClaimedChannel(ch, guildId, me, actorId, now);
      IsClaimed(c.topic) && c.name == ch.name && c.parent == ch.parent
  {
    ClaimTopicIsClaimed(ch.topic, actorId);
  }

  /** On the overwrites an open installs, the claim recovers the opener. */
  lemma RecoverOpener(guildId: string, userId: string)
    requires userId != TICKET_ROLE_ID && userId != guildId
    ensures RecoverAuthor(OpenOverwrites(guildId, userId), guildId) == Some(userId)
  {
    var ows := OpenOverwrites(guildId, userId);
    assert !IsAuthorCandidate(ows[0], guildId);
    assert IsAuthorCandidate(ows[1], guildId);
    var f := FirstAuthorCandidate(ows, guildId);
    assert f == Some(1);
  }

  /** When the buttons sit on the first message and nothing newer has any, the claim rewrites that first message. */
  lemma ClaimTargetsIntro(history: seq<Message>)
    requires 0 < |history| <= CLAIM_SEARCH_LIMIT && HasComponents(history[0])
    requires forall i :: 0 < i < |history| ==> !HasComponents(history[i])
    ensures ClaimTarget(history) == Some(0)
  {
  }

  /** On the introduction's row, the claim disables the claim button and keeps the close button. */
  lemma DisableIntroRow()
    ensures DisableClaim(IntroRow()) == [ Button(CLAIM_BUTTON_ID, "Reclamar", Primary, true),
                                          Button(CLOSE_BUTTON_ID, "Cerrar", Danger, false) ]
  {
    assert CLOSE_BUTTON_ID[9] != CLAIM_BUTTON_ID[9];
    var row := DisableClaim(IntroRow());
    assert row[0] == IntroRow()[0].(disabled := true);
    assert row[1] == IntroRow()[1];
    assert row == [row[0], row[1]];
  }

  /**
   * The message the claim targets keeps everything but its buttons, which
   * become a single row as long as its old first row, with exactly the
   * `ticket-claim` buttons disabled; every other message is unchanged.
   */
  lemma DisableClaimAt(history: seq<Message>, k: nat)
    requires ClaimTarget(history) == Some(k)
    ensures k < |history| && |DisableClaimIn(history)| == |history|
    ensures var m := DisableClaimIn(history)[k];
      var old_row := history[k].components[0];
      && m == history[k].(components := m.components)
      && |m.components| == 1 && |m.components[0]| == |old_row|
      && (forall j :: 0 <= j < |old_row| && old_row[j].customId == CLAIM_BUTTON_ID ==>
            m.components[0][j] == old_row[j].(disabled := true))
      && (forall j :: 0 <= j < |old_row| && old_row[j].customId != CLAIM_BUTTON_ID ==>
            m.components[0][j] == old_row[j])
    ensures forall i :: 0 <= i < |history| && i != k ==> DisableClaimIn(history)[i] == history[i]
  {
  }

  /** The claim of a fresh ticket's history rewrites the introduction's buttons and appends the notice. */
  lemma ClaimOfFreshHistory(me: User, userId: string, openedAt: string, later: seq<Message>,
                            actorId: string, now: string)
    requires |later| < CLAIM_SEARCH_LIMIT && forall i :: 0 <= i < |later| ==> !HasComponents(later[i])
    ensures var ms := DisableClaimIn([IntroMessage(me, userId, openedAt)] + later) + [ClaimNotice(me, actorId, now)];
      && ms[0].components == [[ Button(CLAIM_BUTTON_ID, "Reclamar", Primary, true),
                               Button(CLOSE_BUTTON_ID, "Cerrar", Danger, false) ]]
      && ms[1..] == later + [ClaimNotice(me, actorId, now)]
  {
    var intro := IntroMessage(me, userId, openedAt);
    FreshHistoryDisabled(intro, later);
    DisableIntroRow();
    var disabled := [intro.(components := [DisableClaim(IntroRow())])] + later;
    var ms := disabled + [ClaimNotice(me, actorId, now)];
    assert ms[0] == disabled[0];
    assert ms[1..] == disabled[1..] + [ClaimNotice(me, actorId, now)];
  }

  /** On a history that starts with the introduction and has no later buttons, only the introduction's row changes. */
  lemma FreshHistoryDisabled(intro: Message, later: seq<Message>)
    requires intro.components == [IntroRow()]
    requires |later| < CLAIM_SEARCH_LIMIT && forall i :: 0 <= i < |later| ==> !HasComponents(later[i])
    ensures DisableClaimIn([intro] + later) == [intro.(components := [DisableClaim(IntroRow())])] + later
  {
    var history := [intro] + later;
    assert forall i :: 0 < i < |history| ==> history[i] == later[i - 1];
    ClaimTargetsIntro(history);
    DisableClaimAt(history, 0);
  }

  /**
   * Claiming a freshly opened ticket, while the introduction message is
   * among the last ten and no later message has buttons: the topic carries
   * the claim and still yields the category, the overwrites are exactly
   * everyone denied, staff read-only, claimer and opener with full rights,
   * and on the introduction message only the claim button is disabled.
   */
  lemma ClaimOfFreshTicket(guildId: string, me: User, user: User, key: string, openedAt: string,
                           later: seq<Message>, actorId: string, now: string)
    requires user.id != TICKET_ROLE_ID && user.id != guildId && SafeTag(user.tag)
    requires |later| < CLAIM_SEARCH_LIMIT && forall i :: 0 <= i < |later| ==> !HasComponents(later[i])
    ensures var ch := NewTicket(guildId, me, user, CategoryName(key), openedAt);
      var c := ClaimedChannel(ch.(messages := ch.messages + later), guildId, me, actorId, now);
      && IsClaimed(c.topic)
      && CategoryOf(c.topic) == CategoryName(key)
      && c.overwrites == [ Overwrite(Some(guildId), {}, {ViewChannel}),
                           Overwrite(Some(TICKET_ROLE_ID), {ViewChannel}, {SendMessages}),
                           Overwrite(Some(actorId), FULL_ACCESS, {}),
                           Overwrite(Some(user.id), FULL_ACCESS, {}) ]
      && c.messages[0].components == [[ Button(CLAIM_BUTTON_ID, "Reclamar", Primary, true),
                                        Button(CLOSE_BUTTON_ID, "Cerrar", Danger, false) ]]
      && c.messages[1..] == later + [ClaimNotice(me, actorId, now)]
  {
    var name := CategoryName(key);
    var ch := NewTicket(guildId, me, user, name, openedAt);
    CategoryNamesAreSafe(key);
    ClaimTopicIsClaimed(ch.topic, actorId);
    CategoryOfClaimTopic(user.tag, name, actorId);
    RecoverOpener(guildId, user.id);
    ClaimOfFreshHistory(me, user.id, openedAt, later, actorId, now);
  }
}
