/** The raw reaction handlers of `bot.py`: which reaction events the bot acts
    on and what it does with each. Both handlers consult the legacy config of
    `utils/util.py`; the intake channel id is a parameter, `None` as the bot
    starts up. */
module Bot {
  import opened Common
  import opened PyDict
  import opened Platform
  import opened LegacyUtil

  /** What an accepted reaction asks for. */
  datatype Action =
    | Ignore
      /** A check mark on the setup message: open a ticket for the reactor. */
    | CreateTicket(userId: int, channelId: int, messageId: int)
      /** A padlock: the bot adds its own check mark to that message. */
    | AddConfirm(messageId: int)
      /** A check mark anywhere else: close the ticket of that channel. */
    | CloseTicket(channelId: int, userId: int)
      /** A padlock taken away: the bot removes its check mark. */
    | RemoveConfirm(messageId: int)

  /** The channel test both handlers share: the intake channel is accepted
      without reading the config, any other channel must be a key of it. */
  function AcceptsChannel(file: Option<Dict>, intake: Option<int>, channelId: int): (r: Result<bool>)
    ensures intake == Some(channelId) ==> r == Ok(true)
    ensures intake != Some(channelId) ==>
              r == (if file.None? then Err(FileNotFound) else Ok(IsATicket(file.value, IntId(channelId))))
  {
    if intake == Some(channelId) then Ok(true)
    else
      var d :- ReadJson(file);
      Ok(IsATicket(d, IntId(channelId)))
  }

  /** The message test both handlers share: `CheckIfValidReactionMessage`. */
  function AcceptsMessage(file: Option<Dict>, messageId: int): (r: Result<bool>)
    ensures file.None? ==> r == Err(FileNotFound)
    ensures file.Some? ==> r == IsValidReactionMessage(file.value, messageId)
  {
    var d :- ReadJson(file);
    IsValidReactionMessage(d, messageId)
  }

  /** `on_raw_reaction_add`, up to the branch it takes. The bot's own
      reactions and other emojis are ignored before anything is read; the
      channel and message tests may raise. */
  function ReactionAddAction(file: Option<Dict>, botUserId: int, intake: Option<int>, p: Payload): (r: Result<Action>)
    ensures p.userId == botUserId ==> r == Ok(Ignore)
    ensures p.emoji != Lock && p.emoji != Check ==> r == Ok(Ignore)
    ensures r.Ok? && r.value.CreateTicket? ==>
              && p.userId != botUserId && p.emoji == Check
              && AcceptsChannel(file, intake, p.channelId) == Ok(true)
              && AcceptsMessage(file, p.messageId) == Ok(true)
              && Matches(IntId(p.messageId), Get(file.value, SetupKey).value)
              && r.value == CreateTicket(p.userId, p.channelId, p.messageId)
    ensures r.Ok? && r.value.AddConfirm? ==>
              && p.userId != botUserId && p.emoji == Lock
              && AcceptsChannel(file, intake, p.channelId) == Ok(true)
              && AcceptsMessage(file, p.messageId) == Ok(true)
              && r.value == AddConfirm(p.messageId)
    ensures r.Ok? && r.value.CloseTicket? ==>
              && p.userId != botUserId && p.emoji == Check
              && AcceptsChannel(file, intake, p.channelId) == Ok(true)
              && AcceptsMessage(file, p.messageId) == Ok(true)
              && !Matches(IntId(p.messageId), Get(file.value, SetupKey).value)
              && r.value == CloseTicket(p.channelId, p.userId)
    ensures r.Ok? ==> !r.value.RemoveConfirm?
  {
    if p.userId == botUserId then Ok(Ignore)
    else if p.emoji != Lock && p.emoji != Check then Ok(Ignore)
    else
      var channelOk :- AcceptsChannel(file, intake, p.channelId);
      if !channelOk then Ok(Ignore)
      else
        var messageOk :- AcceptsMessage(file, p.messageId);
        if !messageOk then Ok(Ignore)
        else
          match file
          case None => Err(FileNotFound)
          case Some(d) =>
            match Index(d, SetupKey)
            case Err(e) => Err(e)
            case Ok(setup) =>
              if Matches(IntId(p.messageId), setup) && p.emoji == Check then Ok(CreateTicket(p.userId, p.channelId, p.messageId))
              else if p.emoji == Lock then Ok(AddConfirm(p.messageId))
              else Ok(CloseTicket(p.channelId, p.userId))
  }

  /** `on_raw_reaction_remove`: only a padlock taken away by someone other
      than the bot, on an accepted channel and message, does anything. */
  function ReactionRemoveAction(file: Option<Dict>, botUserId: int, intake: Option<int>, p: Payload): (r: Result<Action>)
    ensures p.userId == botUserId || p.emoji != Lock ==> r == Ok(Ignore)
    ensures r.Ok? ==> r.value == Ignore || r.value == RemoveConfirm(p.messageId)
    ensures r == Ok(RemoveConfirm(p.messageId)) <==>
              && p.userId != botUserId && p.emoji == Lock
              && AcceptsChannel(file, intake, p.channelId) == Ok(true)
              && AcceptsMessage(file, p.messageId) == Ok(true)
  {
    if p.userId == botUserId then Ok(Ignore)
    else if p.emoji != Lock then Ok(Ignore)
    else
      var channelOk :- AcceptsChannel(file, intake, p.channelId);
      if !channelOk then Ok(Ignore)
      else
        var messageOk :- AcceptsMessage(file, p.messageId);
        if !messageOk then Ok(Ignore)
        else Ok(RemoveConfirm(p.messageId))
  }

  /** Every accepted add event takes exactly one branch, decided by the emoji
      and by whether the message is the setup message. */
  lemma ReactionAddBranches(file: Option<Dict>, botUserId: int, intake: Option<int>, p: Payload)
    requires p.userId != botUserId && (p.emoji == Lock || p.emoji == Check)
    requires AcceptsChannel(file, intake, p.channelId) == Ok(true)
    requires AcceptsMessage(file, p.messageId) == Ok(true)
    ensures file.Some? && SetupKey in Keys(file.value)
    ensures var setup := Matches(IntId(p.messageId), Get(file.value, SetupKey).value);
            ReactionAddAction(file, botUserId, intake, p)
            == Ok(if setup && p.emoji == Check then CreateTicket(p.userId, p.channelId, p.messageId)
                  else if p.emoji == Lock then AddConfirm(p.messageId)
                  else CloseTicket(p.channelId, p.userId))
  {
  }

  /** On a well-formed config the add handler never raises, and it acts
      exactly on a padlock or check mark from someone else, in an accepted
      channel, on the setup message or a ticket's reaction message. */
  lemma ReactionAddOnWellFormed(d: Dict, botUserId: int, intake: Option<int>, p: Payload)
    requires WellFormed(d)
    ensures ReactionAddAction(Some(d), botUserId, intake, p).Ok?
    ensures ReactionAddAction(Some(d), botUserId, intake, p) != Ok(Ignore) <==>
              && p.userId != botUserId && (p.emoji == Lock || p.emoji == Check)
              && (intake == Some(p.channelId) || IsATicket(d, IntId(p.channelId)))
              && (Matches(IntId(p.messageId), Get(d, SetupKey).value) || SomeChannelCarries(d, p.messageId))
  {
    ValidReactionMessageIff(d, p.messageId);
  }

  /** Scenario: after the setup message is posted, a check mark on it in the
      intake channel opens a ticket. */
  lemma CheckOnSetupMessageCreates(d: Dict, botUserId: int, intake: int, messageId: int, userId: int, member: Option<Member>)
    requires userId != botUserId
    ensures ReactionAddAction(Some(WithSetupMessage(d, messageId)), botUserId, Some(intake),
                              Payload(userId, Check, intake, messageId, member))
            == Ok(CreateTicket(userId, intake, messageId))
  {
  }

  /** In a ticket created on a well-formed config, the channel and its
      welcome message pass both tests. */
  lemma WelcomeMessageAccepted(d: Dict, intake: Option<int>, newChannel: int, welcomeMessage: int)
    requires WellFormed(d) && NewTicketId(d).Ok?
    ensures var created := CreatedConfig(d, NewTicketId(d).value, newChannel, welcomeMessage);
            && AcceptsChannel(Some(created), intake, newChannel) == Ok(true)
            && AcceptsMessage(Some(created), welcomeMessage) == Ok(true)
            && Get(created, SetupKey) == Get(d, SetupKey)
  {
    var id := NewTicketId(d).value;
    var created := CreatedConfig(d, id, newChannel, welcomeMessage);
    CreatedConfigWellFormed(d, id, newChannel, welcomeMessage);
    ValidReactionMessageIff(created, welcomeMessage);
    IntChannelIsNotConfigKey(newChannel);
  }

  /** Scenario: a padlock on a new ticket's welcome message asks for the
      confirmation mark, and taking it away removes the mark. */
  lemma LockOnWelcomeMessage(d: Dict, botUserId: int, intake: Option<int>, newChannel: int, welcomeMessage: int,
                             userId: int, member: Option<Member>)
    requires WellFormed(d) && NewTicketId(d).Ok? && userId != botUserId
    ensures var created := CreatedConfig(d, NewTicketId(d).value, newChannel, welcomeMessage);
            var p := Payload(userId, Lock, newChannel, welcomeMessage, member);
            && ReactionAddAction(Some(created), botUserId, intake, p) == Ok(AddConfirm(welcomeMessage))
            && ReactionRemoveAction(Some(created), botUserId, intake, p) == Ok(RemoveConfirm(welcomeMessage))
  {
    var created := CreatedConfig(d, NewTicketId(d).value, newChannel, welcomeMessage);
    WelcomeMessageAccepted(d, intake, newChannel, welcomeMessage);
    ReactionAddBranches(Some(created), botUserId, intake, Payload(userId, Lock, newChannel, welcomeMessage, member));
  }

  /** Scenario: a check mark on a new ticket's welcome message closes it,
      unless that message is also the setup message. */
  lemma CheckOnWelcomeMessage(d: Dict, botUserId: int, intake: Option<int>, newChannel: int, welcomeMessage: int,
                              userId: int, member: Option<Member>)
    requires WellFormed(d) && NewTicketId(d).Ok? && userId != botUserId
    requires !Matches(IntId(welcomeMessage), Get(d, SetupKey).value)
    ensures var created := CreatedConfig(d, NewTicketId(d).value, newChannel, welcomeMessage);
            ReactionAddAction(Some(created), botUserId, intake, Payload(userId, Check, newChannel, welcomeMessage, member))
            == Ok(CloseTicket(newChannel, userId))
  {
    var created := CreatedConfig(d, NewTicketId(d).value, newChannel, welcomeMessage);
    WelcomeMessageAccepted(d, intake, newChannel, welcomeMessage);
    ReactionAddBranches(Some(created), botUserId, intake, Payload(userId, Check, newChannel, welcomeMessage, member));
  }

  /** `on_raw_reaction_add` with its branches carried out on the legacy config.
      The reactor is the member the platform resolves for `p.userId`; the
      new channel and welcome message ids are those the platform hands out
      if a ticket is opened. The close branch is returned as an action only. */
  method OnRawReactionAdd(config: LegacyConfig, botUserId: int, intake: Option<int>, p: Payload, reactor: Member,
                          newChannel: int, welcomeMessage: int)
    returns (r: Result<(Action, seq<Event>)>)
    requires config.Valid()
    requires reactor.id == p.userId
    modifies config
    ensures config.Valid()
    ensures match ReactionAddAction(old(config.file), botUserId, intake, p)
            case Err(e) => r == Err(e) && config.file == old(config.file)
            case Ok(CreateTicket(_, _, _)) =>
              (match CreateNewTicketEffects(old(config.file), reactor, None, None, newChannel, welcomeMessage)
               case Ok(q) => r == Ok((CreateTicket(p.userId, p.channelId, p.messageId), q.0 + [RemoveReaction(p.messageId, Check, p.userId)]))
                             && config.file == Some(q.1)
               case Err(e) => r == Err(e) && config.file == old(config.file))
            case Ok(AddConfirm(m)) => r == Ok((AddConfirm(m), [AddReaction(m, Check)])) && config.file == old(config.file)
            case Ok(a) => r == Ok((a, [])) && config.file == old(config.file)
  {
    var action := ReactionAddAction(config.file, botUserId, intake, p);
    if action.Err? {
      return Err(action.error);
    }
    var a := action.value;
    if a.CreateTicket? {
      var created := config.ReactionCreateNewTicket(reactor, newChannel, welcomeMessage);
      if created.Err? {
        return Err(created.error);
      }
      r := Ok((a, created.value + [RemoveReaction(a.messageId, Check, a.userId)]));
    } else if a.AddConfirm? {
      r := Ok((a, [AddReaction(a.messageId, Check)]));
    } else {
      r := Ok((a, []));
    }
  }

  /** `on_raw_reaction_remove`: the bot takes its check mark off the message. */
  method OnRawReactionRemove(config: LegacyConfig, botUserId: int, intake: Option<int>, p: Payload)
    returns (r: Result<seq<Event>>)
    ensures match ReactionRemoveAction(config.file, botUserId, intake, p)
            case Err(e) => r == Err(e)
            case Ok(RemoveConfirm(m)) => r == Ok([RemoveReaction(m, Check, botUserId)])
            case Ok(_) => r == Ok([])
  {
    var action := ReactionRemoveAction(config.file, botUserId, intake, p);
    if action.Err? {
      return Err(action.error);
    }
    if action.value.RemoveConfirm? {
      return Ok([RemoveReaction(action.value.messageId, Check, botUserId)]);
    }
    return Ok([]);
  }
}
