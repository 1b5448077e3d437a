/** `Ticket`: the ticket workflow over a store. Each operation is given as a
    function from the store's view and the platform's inputs to the events it
    causes (and the store it leaves), and as a method that performs the same
    steps against a `Store`, in the source's order. */
module TicketModel {
  import opened Common
  import opened PyDict
  import opened Platform
  import opened Stores
  import S = SqlLiteStoreModel

  const CloseRefusal := "I can only close channels that are actual tickets."
  const DefaultCloseReason := "No closing reason specified."
  const AddRefusal := "This is not a ticket! Users can only be added to a ticket channel."
  const RemoveRefusal := "This is not a ticket! Users can only be removed from a ticket channel."
  const NameWidth := 15

  // ---------------------------------------------------------------------
  // Transcript

  /** One history message in the transcript: date, author name left-justified
      to 15 columns, an arrow and the content, on its own line. */
  function TranscriptLine(m: Message): (line: string)
    ensures m.date + " " + m.authorName <= line
    ensures |line| >= |m.date| + 1 + NameWidth + 4 + |m.content| + 1
    ensures |line| == |m.date| + 1 + |PadRight(m.authorName, NameWidth)| + 4 + |m.content| + 1
    ensures EndsWith(line, " -> " + m.content + "\n")
    ensures forall i | |m.date| + 1 + |m.authorName| <= i < |m.date| + 1 + NameWidth :: line[i] == ' '
  {
    m.date + " " + PadRight(m.authorName, NameWidth) + " -> " + m.content + "\n"
  }

  // ---------------------------------------------------------------------
  // validate_reaction_event

  /** The four early-return checks: not the bot itself, an accepted emoji, the
      intake channel or a ticket channel, a recognised message. Only the last
      query can raise. */
  function ValidateReactionEvent(v: View, botUserId: int, intakeChannel: Option<int>, p: Payload, emojis: seq<string>): (r: Result<bool>)
    ensures p.userId == botUserId ==> r == Ok(false)
    ensures p.emoji !in emojis ==> r == Ok(false)
    ensures Some(p.channelId) != intakeChannel && !ViewIsTicket(v, p.channelId) ==> r == Ok(false)
    ensures r == Ok(true) <==>
              && p.userId != botUserId
              && p.emoji in emojis
              && (Some(p.channelId) == intakeChannel || ViewIsTicket(v, p.channelId))
              && ViewIsReactionMessage(v, p.messageId) == Ok(true)
    ensures r.Err? ==> r == ViewIsReactionMessage(v, p.messageId)
  {
    if p.userId == botUserId then Ok(false)
    else if p.emoji !in emojis then Ok(false)
    else if Some(p.channelId) != intakeChannel && !ViewIsTicket(v, p.channelId) then Ok(false)
    else ViewIsReactionMessage(v, p.messageId)
  }

  /** On the SQLite store validation never raises. */
  lemma SqlValidationNeverRaises(v: View, botUserId: int, intakeChannel: Option<int>, p: Payload, emojis: seq<string>)
    requires v.SqlView?
    ensures ValidateReactionEvent(v, botUserId, intakeChannel, p, emojis).Ok?
  {
  }

  // ---------------------------------------------------------------------
  // close_ticket

  /** `close_ticket`: refuses on a non-ticket channel unless it is a reaction
      event; otherwise writes the transcript, logs it with the reason and
      deletes the channel. The store is only queried. */
  function CloseTicketEffects(v: View, channelId: int, reason: Option<string>, reactionEvent: bool, history: seq<Message>): (r: Result<seq<Event>>)
    ensures !ViewIsTicket(v, channelId) && !reactionEvent ==> r == Ok([Send(channelId, Text(CloseRefusal))])
    ensures r.Ok? ==> StoreWrites(r.value) == []
    ensures ViewIsTicket(v, channelId) || reactionEvent ==>
              (r.Ok? <==> ViewTicketId(v, channelId).Ok?)
    ensures (ViewIsTicket(v, channelId) || reactionEvent) && r.Ok? ==>
              var id := Display(ViewTicketId(v, channelId).value);
              && |r.value| == 3
              && r.value[0] == WriteFile(TranscriptPath(id), Transcript(id, history, TranscriptLine))
              && r.value[1] == Log("Closed Ticked: Id " + id, "Close Reason: " + OrDefault(reason, DefaultCloseReason), Some(TranscriptPath(id)))
              && r.value[2] == DeleteChannel(channelId)
  {
    if !ViewIsTicket(v, channelId) && !reactionEvent then Ok([Send(channelId, Text(CloseRefusal))])
    else
      var why := OrDefault(reason, DefaultCloseReason);
      var ticketId :- ViewTicketId(v, channelId);
      var id := Display(ticketId);
      Ok([WriteFile(TranscriptPath(id), Transcript(id, history, TranscriptLine)),
          Log("Closed Ticked: Id " + id, "Close Reason: " + why, Some(TranscriptPath(id))),
          DeleteChannel(channelId)])
  }

  /** Closing a channel the JSON store does not know, by reaction, goes ahead
      with ticket id None: the transcript is written to "tickets/None.txt". */
  lemma JsonReactionCloseOfUnknownChannel(v: View, channelId: int, history: seq<Message>)
    requires v.JsonView? && !ViewIsTicket(v, channelId)
    ensures CloseTicketEffects(v, channelId, None, true, history).Ok?
    ensures CloseTicketEffects(v, channelId, None, true, history).value[0].path == "tickets/None.txt"
  {
  }

  /** The same on the SQLite store raises before anything happens. */
  lemma SqlReactionCloseOfUnknownChannel(v: View, channelId: int, history: seq<Message>)
    requires v.SqlView? && !ViewIsTicket(v, channelId)
    ensures CloseTicketEffects(v, channelId, None, true, history) == Err(TypeError)
  {
  }

  // ---------------------------------------------------------------------
  // create_ticket

  /** `f"{subject}"` for an optional subject. */
  function SubjectText(subject: Option<string>): string {
    match subject
    case None => "None"
    case Some(s) => s
  }

  function ChannelName(ticketId: int): string {
    "Support Ticket #" + IntToDecimal(ticketId)
  }

  /** The events of a successful `create_ticket` between drawing the id and the subject. */
  function Greeting(author: Member, ticketId: int, newChannel: int, welcomeMessage: int): seq<Event> {
    [CreateChannel(ChannelName(ticketId), author.id, newChannel),
     Send(newChannel, Welcome(author.id, author.displayName)),
     AddReaction(welcomeMessage, Lock)]
  }

  /** The subject embed, posted only for a non-empty subject. */
  function SubjectPosts(author: Member, subject: Option<string>, newChannel: int): seq<Event> {
    if subject.Some? && subject.value != "" then [Send(newChannel, SubjectEmbed(subject.value, author.name))] else []
  }

  /** The "Created ticket" log entry. */
  function CreationLog(author: Member, subject: Option<string>, ticketId: int, newChannel: int): Event {
    Log("Created ticket with ID " + IntToDecimal(ticketId),
        CreationLogBody(author, newChannel, ChannelName(ticketId), SubjectText(subject)), None)
  }

  function CreationEvents(author: Member, subject: Option<string>, ticketId: int, newChannel: int, welcomeMessage: int): seq<Event> {
    [Stored(DrawTicketId(ticketId))]
    + Greeting(author, ticketId, newChannel, welcomeMessage)
    + SubjectPosts(author, subject, newChannel)
    + [Stored(PersistTicket(newChannel, ticketId, Some(welcomeMessage)))]
    + [CreationLog(author, subject, ticketId, newChannel)]
  }

  /** `create_ticket`: draws one id first, opens "Support Ticket #id", posts
      the welcome message with a padlock and the subject if there is one,
      then records (channel, id, welcome message) once and logs. */
  function CreateTicketEffects(v: View, author: Member, subject: Option<string>, newChannel: int, welcomeMessage: int): (r: Result<(seq<Event>, View)>)
    ensures r.Ok? <==> ViewNextTicketId(v).Ok?
    ensures r.Err? ==> r.error == ViewNextTicketId(v).error
    ensures r.Ok? ==>
              var id := ViewNextTicketId(v).value.0;
              var trace := r.value.0;
              && |trace| >= 6
              && trace[0] == Stored(DrawTicketId(id))
              && trace[1] == CreateChannel(ChannelName(id), author.id, newChannel)
              && StoreWrites(trace) == [DrawTicketId(id), PersistTicket(newChannel, id, Some(welcomeMessage))]
              && trace[|trace| - 2] == Stored(PersistTicket(newChannel, id, Some(welcomeMessage)))
              && trace[|trace| - 1].Log?
              && (Send(newChannel, SubjectEmbed(SubjectText(subject), author.name)) in trace
                  <==> subject.Some? && subject.value != "")
    ensures r.Ok? ==> r.value.1 == ViewCreateTicket(ViewNextTicketId(v).value.1, newChannel,
                                                    ViewNextTicketId(v).value.0, welcomeMessage)
    ensures r.Ok? ==> ViewIsTicket(r.value.1, newChannel)
    ensures r.Ok? && (v.JsonView? || !ViewIsTicket(v, newChannel)) ==>
              ViewTicketId(r.value.1, newChannel) == Ok(Int(ViewNextTicketId(v).value.0))
  {
    var drawn :- ViewNextTicketId(v);
    var id := drawn.0;
    var trace := CreationEvents(author, subject, id, newChannel, welcomeMessage);
    CreationEventsStoreWrites(author, subject, id, newChannel, welcomeMessage);
    CreationEventsShape(author, subject, id, newChannel, welcomeMessage);
    CreationEventsPostSubject(author, subject, id, newChannel, welcomeMessage);
    CreateThenTicketId(drawn.1, newChannel, id, welcomeMessage);
    Ok((trace, ViewCreateTicket(drawn.1, newChannel, id, welcomeMessage)))
  }

  /** The creation events write the store twice: the id is drawn first and
      the ticket recorded after every post. */
  lemma CreationEventsStoreWrites(author: Member, subject: Option<string>, ticketId: int, newChannel: int, welcomeMessage: int)
    ensures StoreWrites(CreationEvents(author, subject, ticketId, newChannel, welcomeMessage))
            == [DrawTicketId(ticketId), PersistTicket(newChannel, ticketId, Some(welcomeMessage))]
  {
    var greeting := Greeting(author, ticketId, newChannel, welcomeMessage);
    var posts := SubjectPosts(author, subject, newChannel);
    var log := [CreationLog(author, subject, ticketId, newChannel)];
    assert NoStoreWrites(greeting) && NoStoreWrites(posts) && NoStoreWrites(log);
    StoreWritesTwo(DrawTicketId(ticketId), greeting, posts, PersistTicket(newChannel, ticketId, Some(welcomeMessage)), log);
  }

  /** The run opens with the draw and the new channel, and closes with the
      ticket's record and the log entry. */
  lemma CreationEventsShape(author: Member, subject: Option<string>, ticketId: int, newChannel: int, welcomeMessage: int)
    ensures var trace := CreationEvents(author, subject, ticketId, newChannel, welcomeMessage);
            && |trace| >= 6
            && trace[0] == Stored(DrawTicketId(ticketId))
            && trace[1] == CreateChannel(ChannelName(ticketId), author.id, newChannel)
            && trace[|trace| - 2] == Stored(PersistTicket(newChannel, ticketId, Some(welcomeMessage)))
            && trace[|trace| - 1].Log?
  {
  }

  /** The subject embed is among the creation events exactly when the subject
      is non-empty. */
  lemma CreationEventsPostSubject(author: Member, subject: Option<string>, ticketId: int, newChannel: int, welcomeMessage: int)
    ensures Send(newChannel, SubjectEmbed(SubjectText(subject), author.name)) in CreationEvents(author, subject, ticketId, newChannel, welcomeMessage)
            <==> subject.Some? && subject.value != ""
  {
    var post := Send(newChannel, SubjectEmbed(SubjectText(subject), author.name));
    var greeting := Greeting(author, ticketId, newChannel, welcomeMessage);
    var posts := SubjectPosts(author, subject, newChannel);
    var tail := [Stored(PersistTicket(newChannel, ticketId, Some(welcomeMessage)))] + [CreationLog(author, subject, ticketId, newChannel)];
    assert post !in [Stored(DrawTicketId(ticketId))] + greeting;
    assert post !in tail;
    assert CreationEvents(author, subject, ticketId, newChannel, welcomeMessage)
        == ([Stored(DrawTicketId(ticketId))] + greeting) + posts + tail;
  }

  // ---------------------------------------------------------------------
  // add_user / remove_user

  /** `add_user` (grant) and `remove_user` (revoke): refuse on a non-ticket
      channel, otherwise set both read and send permissions to `grant`. */
  function UserAccessEffects(v: View, channelId: int, userId: int, grant: bool): (trace: seq<Event>)
    ensures StoreWrites(trace) == [] && |trace| == 1
    ensures trace[0].SetPermissions? <==> ViewIsTicket(v, channelId)
    ensures trace[0].SetPermissions? ==> trace[0] == SetPermissions(channelId, userId, grant, grant)
    ensures !trace[0].SetPermissions? ==> trace[0] == Send(channelId, Text(if grant then AddRefusal else RemoveRefusal))
  {
    if !ViewIsTicket(v, channelId) then [Send(channelId, Text(if grant then AddRefusal else RemoveRefusal))]
    else [SetPermissions(channelId, userId, grant, grant)]
  }

  // ---------------------------------------------------------------------
  // setup_new_ticket_message

  /** `setup_new_ticket_message`: post the services embed in the intake
      channel, react with a check mark, save it as the setup message. With no
      intake channel configured there is no channel to send to. */
  function SetupMessageEffects(v: View, intakeChannel: Option<int>, messageId: int): (r: Result<(seq<Event>, View)>)
    ensures r.Err? <==> intakeChannel.None?
    ensures r.Err? ==> r.error == AttributeError
    ensures r.Ok? ==> r.value.0 == [Send(intakeChannel.value, ServicesEmbed), AddReaction(messageId, Check),
                                    Stored(SaveSetupMessage(messageId))]
    ensures r.Ok? ==> forall c :: ViewIsTicket(r.value.1, c) == ViewIsTicket(v, c)
    ensures r.Ok? && (v.JsonView? || |S.ConfigRows(v.db)| > 0) ==> ViewIsReactionMessage(r.value.1, messageId) == Ok(true)
  {
    match intakeChannel
    case None => Err(AttributeError)
    case Some(c) => Ok(([Send(c, ServicesEmbed), AddReaction(messageId, Check), Stored(SaveSetupMessage(messageId))],
                        ViewSaveSetup(v, messageId)))
  }

  // ---------------------------------------------------------------------
  // reaction_create_ticket

  /** `payload.member or guild.get_member(payload.user_id)`. */
  function ReactingMember(p: Payload, fetched: Member): Member {
    p.member.GetOr(fetched)
  }

  /** `reaction_create_ticket`: a validated padlock or check-mark reaction
      creates a ticket for the reacting member and removes their check mark;
      anything else does nothing. */
  function ReactionCreateEffects(v: View, botUserId: int, intakeChannel: Option<int>, p: Payload, member: Member,
                                 newChannel: int, welcomeMessage: int): (r: Result<(seq<Event>, View)>)
    ensures ValidateReactionEvent(v, botUserId, intakeChannel, p, [Lock, Check]) == Ok(false) ==> r == Ok(([], v))
    ensures ValidateReactionEvent(v, botUserId, intakeChannel, p, [Lock, Check]) == Ok(true) ==>
              match CreateTicketEffects(v, member, None, newChannel, welcomeMessage)
              case Ok(created) => r == Ok((created.0 + [RemoveReaction(p.messageId, Check, member.id)], created.1))
              case Err(e) => r == Err(e)
    ensures r.Ok? && r.value.0 != [] ==> r.value.0[|r.value.0| - 1] == RemoveReaction(p.messageId, Check, member.id)
                                         && ViewIsTicket(r.value.1, newChannel)
    ensures r.Ok? && r.value.0 != [] ==> p.userId != botUserId && (p.emoji == Lock || p.emoji == Check)
  {
    var valid :- ValidateReactionEvent(v, botUserId, intakeChannel, p, [Lock, Check]);
    if !valid then Ok(([], v))
    else
      var created :- CreateTicketEffects(v, member, None, newChannel, welcomeMessage);
      Ok((created.0 + [RemoveReaction(p.messageId, Check, member.id)], created.1))
  }

  // ---------------------------------------------------------------------
  // The methods, against a store

  method ValidateReactionEventOn(db: Store, botUserId: int, intakeChannel: Option<int>, p: Payload, emojis: seq<string>)
    returns (r: Result<bool>)
    requires db.Valid()
    modifies db.Repr()
    ensures db.Valid() && db.View() == old(db.View())
    ensures r == ValidateReactionEvent(old(db.View()), botUserId, intakeChannel, p, emojis)
  {
    if p.userId == botUserId {
      return Ok(false);
    }
    if p.emoji !in emojis {
      return Ok(false);
    }
    if Some(p.channelId) != intakeChannel {
      var isTicket := CheckIsTicket(db, p.channelId);
      if !isTicket {
        return Ok(false);
      }
    }
    r := CheckMessageIsReactionMessage(db, p.messageId);
  }

  method CloseTicket(db: Store, channelId: int, reason: Option<string>, reactionEvent: bool, history: seq<Message>)
    returns (r: Result<seq<Event>>)
    requires db.Valid()
    modifies db.Repr()
    ensures db.Valid() && db.View() == old(db.View())
    ensures r == CloseTicketEffects(old(db.View()), channelId, reason, reactionEvent, history)
  {
    var isTicket := CheckIsTicket(db, channelId);
    if !isTicket && !reactionEvent {
      return Ok([Send(channelId, Text(CloseRefusal))]);
    }
    var why := OrDefault(reason, DefaultCloseReason);
    var ticketId := GetTicketId(db, channelId);
    if ticketId.Err? {
      return Err(ticketId.error);
    }
    var id := Display(ticketId.value);
    var trace := [WriteFile(TranscriptPath(id), Transcript(id, history, TranscriptLine))];
    trace := trace + [Log("Closed Ticked: Id " + id, "Close Reason: " + why, Some(TranscriptPath(id)))];
    trace := trace + [DeleteChannel(channelId)];
    assert trace == [WriteFile(TranscriptPath(id), Transcript(id, history, TranscriptLine)),
                     Log("Closed Ticked: Id " + id, "Close Reason: " + why, Some(TranscriptPath(id))),
                     DeleteChannel(channelId)];
    return Ok(trace);
  }

  method CreateTicket(db: Store, sudoAuthor: Option<Member>, messageAuthor: Member, subject: Option<string>,
                      newChannel: int, welcomeMessage: int)
    returns (r: Result<seq<Event>>)
    requires db.Valid()
    modifies db.Repr()
    ensures db.Valid()
    ensures match CreateTicketEffects(old(db.View()), sudoAuthor.GetOr(messageAuthor), subject, newChannel, welcomeMessage)
            case Ok(p) => r == Ok(p.0) && db.View() == p.1
            case Err(e) => r == Err(e) && db.View() == old(db.View())
  {
    var author := sudoAuthor.GetOr(messageAuthor);
    var drawn := GetNextTicketId(db);
    if drawn.Err? {
      return Err(drawn.error);
    }
    var id := drawn.value;
    var trace := [Stored(DrawTicketId(id))];
    trace := trace + Greeting(author, id, newChannel, welcomeMessage);
    if subject.Some? && subject.value != "" {
      trace := trace + [Send(newChannel, SubjectEmbed(subject.value, author.name))];
    } else {
      trace := trace + [];
    }
    Stores.CreateTicket(db, newChannel, id, welcomeMessage);
    trace := trace + [Stored(PersistTicket(newChannel, id, Some(welcomeMessage)))];
    trace := trace + [CreationLog(author, subject, id, newChannel)];
    return Ok(trace);
  }

  method AddUser(db: Store, channelId: int, userId: int) returns (trace: seq<Event>)
    requires db.Valid()
    modifies db.Repr()
    ensures db.Valid() && db.View() == old(db.View())
    ensures trace == UserAccessEffects(old(db.View()), channelId, userId, true)
  {
    var isTicket := CheckIsTicket(db, channelId);
    if !isTicket {
      return [Send(channelId, Text(AddRefusal))];
    }
    return [SetPermissions(channelId, userId, true, true)];
  }

  method RemoveUser(db: Store, channelId: int, userId: int) returns (trace: seq<Event>)
    requires db.Valid()
    modifies db.Repr()
    ensures db.Valid() && db.View() == old(db.View())
    ensures trace == UserAccessEffects(old(db.View()), channelId, userId, false)
  {
    var isTicket := CheckIsTicket(db, channelId);
    if !isTicket {
      return [Send(channelId, Text(RemoveRefusal))];
    }
    return [SetPermissions(channelId, userId, false, false)];
  }

  method SetupNewTicketMessage(db: Store, intakeChannel: Option<int>, messageId: int) returns (r: Result<seq<Event>>)
    requires db.Valid()
    modifies db.Repr()
    ensures db.Valid()
    ensures match SetupMessageEffects(old(db.View()), intakeChannel, messageId)
            case Ok(p) => r == Ok(p.0) && db.View() == p.1
            case Err(e) => r == Err(e) && db.View() == old(db.View())
  {
    if intakeChannel.None? {
      return Err(AttributeError);
    }
    var trace := [Send(intakeChannel.value, ServicesEmbed), AddReaction(messageId, Check)];
    SaveNewTicketMessage(db, messageId);
    trace := trace + [Stored(SaveSetupMessage(messageId))];
    assert trace == [Send(intakeChannel.value, ServicesEmbed), AddReaction(messageId, Check), Stored(SaveSetupMessage(messageId))];
    return Ok(trace);
  }

  method ReactionCreateTicket(db: Store, botUserId: int, intakeChannel: Option<int>, p: Payload, fetched: Member,
                              newChannel: int, welcomeMessage: int)
    returns (r: Result<seq<Event>>)
    requires db.Valid()
    requires fetched.id == p.userId
    requires p.member.Some? ==> p.member.value.id == p.userId
    modifies db.Repr()
    ensures db.Valid()
    ensures match ReactionCreateEffects(old(db.View()), botUserId, intakeChannel, p, ReactingMember(p, fetched), newChannel, welcomeMessage)
            case Ok(e) => r == Ok(e.0) && db.View() == e.1
            case Err(e) => r == Err(e) && db.View() == old(db.View())
    ensures r.Ok? && r.value != [] ==>
              && r.value[|r.value| - 1] == RemoveReaction(p.messageId, Check, p.userId)
              && |r.value| > 1 && r.value[1].CreateChannel? && r.value[1].requesterId == p.userId
  {
    var valid := ValidateReactionEventOn(db, botUserId, intakeChannel, p, [Lock, Check]);
    if valid.Err? {
      return Err(valid.error);
    }
    if !valid.value {
      return Ok([]);
    }
    var member := ReactingMember(p, fetched);
    var created := CreateTicket(db, None, member, None, newChannel, welcomeMessage);
    if created.Err? {
      return Err(created.error);
    }
    return Ok(created.value + [RemoveReaction(p.messageId, Check, member.id)]);
  }

  /** `reaction_close_ticket`: closes the payload's channel as a reaction
      event, with no validation of its own. */
  method ReactionCloseTicket(db: Store, p: Payload, history: seq<Message>) returns (r: Result<seq<Event>>)
    requires db.Valid()
    modifies db.Repr()
    ensures db.Valid() && db.View() == old(db.View())
    ensures r == CloseTicketEffects(old(db.View()), p.channelId, None, true, history)
  {
    r := CloseTicket(db, p.channelId, None, true, history);
  }
}
