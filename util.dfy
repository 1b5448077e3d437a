/** The older free functions of `utils/util.py`: the same ticket bookkeeping
    over `bot_config/config.json` with camelCase keys ("ticketCount",
    "ticketSetupMessageId", and per channel `{"id", "reactionMsgId"}`), plus the
    create and close workflows built on them. Each helper reads the file
    afresh; a missing file is not caught and raises. */
module LegacyUtil {
  import opened Common
  import opened PyDict
  import opened Platform

  const CountKey := "ticketCount"
  const SetupKey := "ticketSetupMessageId"
  const IdField := "id"
  const ReactionField := "reactionMsgId"
  const DefaultSubject := "No subject specified."
  const DefaultCloseReason := "No closing reason specified."
  const CloseRefusal := "I cannot close this as it is not a ticket."

  /** `read_json("config")`. */
  function ReadJson(file: Option<Dict>): (r: Result<Dict>)
    ensures r.Err? <==> file.None?
    ensures r.Err? ==> r.error == FileNotFound
    ensures r.Ok? ==> r.value == file.value
  {
    match file
    case None => Err(FileNotFound)
    case Some(d) => Ok(d)
  }

  predicate IsChannelKey(k: string) {
    k != CountKey && k != SetupKey
  }

  /** `str()` of an integer channel id is never one of the two configuration keys. */
  lemma IntChannelIsNotConfigKey(channelId: int)
    ensures IsChannelKey(IdText(IntId(channelId)))
  {
    IntToDecimalIsNotWord(channelId, CountKey, 0);
    IntToDecimalIsNotWord(channelId, SetupKey, 0);
  }

  // ---------------------------------------------------------------------
  // The helpers, as functions of the dict read from the file

  /** `GetTicketCount`: `data["ticketCount"]`. */
  function TicketCount(d: Dict): (r: Result<Value>)
    ensures r.Ok? <==> CountKey in Keys(d)
    ensures r.Ok? ==> Get(d, CountKey) == Some(r.value)
    ensures r.Err? ==> r.error == KeyError(CountKey)
  {
    Index(d, CountKey)
  }

  /** `IncrementTicketCount`: exactly one more, every other key unchanged;
      a missing counter is a KeyError and a non-int one a TypeError. */
  function WithCountIncremented(d: Dict): (r: Result<Dict>)
    ensures CountKey !in Keys(d) ==> r == Err(KeyError(CountKey))
    ensures CountKey in Keys(d) ==> (r.Ok? <==> Get(d, CountKey).value.Atom? && Get(d, CountKey).value.a.Int?)
    ensures r.Ok? ==> Get(r.value, CountKey) == Some(Atom(Int(Get(d, CountKey).value.a.n + 1)))
    ensures r.Ok? ==> forall k | k != CountKey :: Get(r.value, k) == Get(d, k)
    ensures r.Ok? && CountKey in Keys(d) ==> Keys(r.value) == Keys(d) && |r.value| == |d|
    ensures r.Ok? && DistinctKeys(d) ==> DistinctKeys(r.value)
  {
    var count :- Index(d, CountKey);
    var next :- AddInt(count, 1);
    SetExistingKeyInPlace(d, CountKey, next);
    Ok(Set(d, CountKey, next))
  }

  /** `GetTicketSetupMessageId`: `data["ticketSetupMessageId"]`. */
  function SetupMessageId(d: Dict): (r: Result<Value>)
    ensures r.Ok? <==> SetupKey in Keys(d)
    ensures r.Ok? ==> Get(d, SetupKey) == Some(r.value)
  {
    Index(d, SetupKey)
  }

  /** The entry `LogNewTicketChannel` builds for a channel. */
  function ChannelEntry(ticketId: int): Value {
    Object(map[IdField := Int(ticketId), ReactionField := Null])
  }

  /** `IsATicket`: `str(channelId) in data`, configuration keys included. */
  predicate IsATicket(d: Dict, channelId: Id) {
    IdText(channelId) in Keys(d)
  }

  /** `GetTicketId`: `data[str(channelId)]["id"]`. */
  function TicketId(d: Dict, channelId: Id): (r: Result<Scalar>)
    ensures !IsATicket(d, channelId) ==> r == Err(KeyError(IdText(channelId)))
    ensures IsATicket(d, channelId) ==> r == Subscript(Get(d, IdText(channelId)).value, IdField)
  {
    var entry :- Index(d, IdText(channelId));
    Subscript(entry, IdField)
  }

  /** `LogNewTicketChannel`: the channel's key now holds `{id, reactionMsgId: None}`,
      whatever it held before, and no other key changes. */
  function WithChannel(d: Dict, channelId: Id, ticketId: int): (r: Dict)
    ensures IsATicket(r, channelId)
    ensures TicketId(r, channelId) == Ok(Int(ticketId))
    ensures Get(r, IdText(channelId)) == Some(ChannelEntry(ticketId))
    ensures forall k | k != IdText(channelId) :: Get(r, k) == Get(d, k)
    ensures Keys(r) == Keys(d) + {IdText(channelId)}
    ensures DistinctKeys(d) ==> DistinctKeys(r)
  {
    Set(d, IdText(channelId), ChannelEntry(ticketId))
  }

  /** `RemoveTicket`: `data.pop(str(channelId))`. */
  function WithoutTicket(d: Dict, channelId: Id): (r: Result<Dict>)
    ensures r.Err? <==> !IsATicket(d, channelId)
    ensures r.Err? ==> r.error == KeyError(IdText(channelId))
    ensures r.Ok? && DistinctKeys(d) ==> !IsATicket(r.value, channelId)
    ensures r.Ok? ==> forall k | k != IdText(channelId) :: Get(r.value, k) == Get(d, k)
  {
    Pop(d, IdText(channelId))
  }

  /** The store step of `NewTicketEmbedSender`: `data[str(channel.id)]["reactionMsgId"] = m.id`.
      Only that field of that entry changes; a missing entry is a KeyError. */
  function WithReactionMessage(d: Dict, channelId: Id, messageId: int): (r: Result<Dict>)
    ensures !IsATicket(d, channelId) ==> r == Err(KeyError(IdText(channelId)))
    ensures IsATicket(d, channelId) ==> (r.Ok? <==> Get(d, IdText(channelId)).value.Object?)
    ensures r.Ok? ==> Get(r.value, IdText(channelId))
                      == Some(Object(Get(d, IdText(channelId)).value.fields[ReactionField := Int(messageId)]))
    ensures r.Ok? ==> forall k | k != IdText(channelId) :: Get(r.value, k) == Get(d, k)
    ensures r.Ok? ==> Keys(r.value) == Keys(d)
    ensures r.Ok? && DistinctKeys(d) ==> DistinctKeys(r.value)
  {
    var entry :- Index(d, IdText(channelId));
    var updated :- SetField(entry, ReactionField, Int(messageId));
    Ok(Set(d, IdText(channelId), updated))
  }

  /** The store step of `SetupNewTicketMessage`. */
  function WithSetupMessage(d: Dict, messageId: int): (r: Dict)
    ensures Get(r, SetupKey) == Some(Atom(Int(messageId)))
    ensures forall k | k != SetupKey :: Get(r, k) == Get(d, k)
  {
    Set(d, SetupKey, Atom(Int(messageId)))
  }

  /** The loop of `CheckIfValidReactionMessage` over the remaining values, in
      order: `value["reactionMsgId"] == msgId`, raising on an entry that has no
      such field or is not an object. */
  function ScanReactionIds(entries: Dict, messageId: int): (r: Result<bool>)
    ensures r == Ok(true) ==> exists e | e in entries :: CarriesReactionMessage(e.1, messageId)
    decreases |entries|
  {
    if entries == [] then Ok(false)
    else
      var field :- Subscript(entries[0].1, ReactionField);
      if field == Int(messageId) then Ok(true) else ScanReactionIds(entries[1..], messageId)
  }

  predicate CarriesReactionMessage(v: Value, messageId: int) {
    v.Object? && ReactionField in v.fields && v.fields[ReactionField] == Int(messageId)
  }

  /** `CheckIfValidReactionMessage`: the setup message, otherwise pop the
      setup key and then the counter and scan the channel entries. */
  function IsValidReactionMessage(d: Dict, messageId: int): (r: Result<bool>)
    ensures SetupKey !in Keys(d) ==> r == Err(KeyError(SetupKey))
    ensures SetupKey in Keys(d) && Matches(IntId(messageId), Get(d, SetupKey).value) ==> r == Ok(true)
    ensures (SetupKey in Keys(d) && !Matches(IntId(messageId), Get(d, SetupKey).value)
             && CountKey !in Keys(d)) ==> r == Err(KeyError(CountKey))
  {
    var setup :- Index(d, SetupKey);
    if Matches(IntId(messageId), setup) then Ok(true)
    else
      // the setup key is present, so popping it cannot raise
      var rest := Remove(d, SetupKey);
      assert Get(rest, CountKey) == Get(d, CountKey);
      var channels :- Pop(rest, CountKey);
      ScanReactionIds(channels, messageId)
  }

  /** The shape the legacy functions themselves write: distinct keys, both
      configuration keys, and every channel entry an object with a
      "reactionMsgId" field. */
  predicate WellFormed(d: Dict) {
    && DistinctKeys(d)
    && SetupKey in Keys(d)
    && CountKey in Keys(d)
    && forall e | e in d && IsChannelKey(e.0) :: e.1.Object? && ReactionField in e.1.fields
  }

  predicate SomeChannelCarries(d: Dict, messageId: int) {
    exists e | e in d :: IsChannelKey(e.0) && CarriesReactionMessage(e.1, messageId)
  }

  /** Over entries that all have the field, the scan answers whether one carries the message. */
  lemma {:induction false} ScanOverEntries(entries: Dict, messageId: int)
    requires forall e | e in entries :: e.1.Object? && ReactionField in e.1.fields
    ensures ScanReactionIds(entries, messageId) == Ok(exists e | e in entries :: CarriesReactionMessage(e.1, messageId))
    decreases |entries|
  {
    if entries != [] {
      assert entries[0] in entries;
      forall e | e in entries[1..] ensures e in entries { }
      ScanOverEntries(entries[1..], messageId);
      if !CarriesReactionMessage(entries[0].1, messageId) {
        forall e | e in entries && CarriesReactionMessage(e.1, messageId) ensures e in entries[1..] {
          var i :| 0 <= i < |entries| && entries[i] == e;
          assert i != 0;
          assert entries[1..][i - 1] == e;
        }
      }
    }
  }

  /** On a well-formed config, a message is valid exactly when it is the setup
      message or some channel entry's reaction message. */
  lemma ValidReactionMessageIff(d: Dict, messageId: int)
    requires WellFormed(d)
    ensures IsValidReactionMessage(d, messageId)
            == Ok(Matches(IntId(messageId), Get(d, SetupKey).value) || SomeChannelCarries(d, messageId))
  {
    if !Matches(IntId(messageId), Get(d, SetupKey).value) {
      var rest := Remove(d, SetupKey);
      var channels := Remove(rest, CountKey);
      assert IsValidReactionMessage(d, messageId) == ScanReactionIds(channels, messageId);
      forall e ensures e in channels <==> e in d && IsChannelKey(e.0) { }
      ScanOverEntries(channels, messageId);
    }
  }

  // ---------------------------------------------------------------------
  // The workflows

  /** `NewTicketSubjectSender`: nothing for the default subject, otherwise the subject embed. */
  function SubjectPosts(author: Member, channelId: int, subject: string): (posts: seq<Event>)
    ensures posts == [] <==> subject == DefaultSubject
    ensures posts != [] ==> posts == [Send(channelId, SubjectEmbed(subject, author.name))]
  {
    if subject == DefaultSubject then [] else [Send(channelId, SubjectEmbed(subject, author.name))]
  }

  /** A history message in the legacy transcript: content, a bar, the author's name. */
  function TranscriptLine(m: Message): (line: string)
    ensures m.content <= line
    ensures EndsWith(line, " | " + m.authorName + "\n")
    ensures |line| == |m.content| + 3 + |m.authorName| + 1
  {
    m.content + " | " + m.authorName + "\n"
  }

  function ChannelName(ticketId: int): string {
    "Support Ticket #" + IntToDecimal(ticketId)
  }

  /** The events of `CreateNewTicket` between recording the channel and
      storing the welcome message's id: the log entry, the welcome message and
      its padlock. */
  function LegacyGreeting(author: Member, topic: string, ticketId: int, newChannel: int, welcomeMessage: int): seq<Event> {
    [Log("Created ticket with ID " + IntToDecimal(ticketId), CreationLogBody(author, newChannel, ChannelName(ticketId), topic), None),
     Send(newChannel, Welcome(author.id, author.displayName)),
     AddReaction(welcomeMessage, Lock)]
  }

  /** The invoking message deleted at the end, when there is one. */
  function CommandDeletion(command: Option<int>): seq<Event> {
    if command.Some? then [DeleteMessage(command.value)] else []
  }

  function LegacyCreationEvents(author: Member, topic: string, command: Option<int>, ticketId: int, newChannel: int, welcomeMessage: int): seq<Event> {
    [CreateChannel(ChannelName(ticketId), author.id, newChannel)]
    + [Stored(PersistTicket(newChannel, ticketId, None))]
    + LegacyGreeting(author, topic, ticketId, newChannel, welcomeMessage)
    + [Stored(SetReactionMessage(newChannel, welcomeMessage))]
    + SubjectPosts(author, newChannel, topic)
    + [Stored(IncrementCount)]
    + CommandDeletion(command)
  }

  /** `CreateNewTicket` writes the store three times, in this order: the
      channel's record, the welcome message's id on it, the counter. */
  lemma LegacyCreationStoreWrites(author: Member, topic: string, command: Option<int>, ticketId: int, newChannel: int, welcomeMessage: int)
    ensures StoreWrites(LegacyCreationEvents(author, topic, command, ticketId, newChannel, welcomeMessage))
            == [PersistTicket(newChannel, ticketId, None), SetReactionMessage(newChannel, welcomeMessage), IncrementCount]
  {
    var opening := [CreateChannel(ChannelName(ticketId), author.id, newChannel)];
    var greeting := LegacyGreeting(author, topic, ticketId, newChannel, welcomeMessage);
    var posts := SubjectPosts(author, newChannel, topic);
    var deletion := CommandDeletion(command);
    assert NoStoreWrites(opening) && NoStoreWrites(greeting) && NoStoreWrites(posts) && NoStoreWrites(deletion);
    StoreWritesThree(opening, PersistTicket(newChannel, ticketId, None), greeting,
                     SetReactionMessage(newChannel, welcomeMessage), posts, IncrementCount, deletion);
  }

  /** The run of `CreateNewTicket` opens the channel first, posts the subject
      exactly when it is not the default one, and deletes the invoking message
      when there is one. */
  lemma LegacyCreationPosts(author: Member, topic: string, command: Option<int>, ticketId: int, newChannel: int, welcomeMessage: int)
    ensures var trace := LegacyCreationEvents(author, topic, command, ticketId, newChannel, welcomeMessage);
            && trace[0] == CreateChannel(ChannelName(ticketId), author.id, newChannel)
            && (Send(newChannel, SubjectEmbed(topic, author.name)) in trace <==> topic != DefaultSubject)
            && (command.Some? ==> DeleteMessage(command.value) in trace)
  {
    var head := [CreateChannel(ChannelName(ticketId), author.id, newChannel)]
                + [Stored(PersistTicket(newChannel, ticketId, None))]
                + LegacyGreeting(author, topic, ticketId, newChannel, welcomeMessage)
                + [Stored(SetReactionMessage(newChannel, welcomeMessage))];
    var posts := SubjectPosts(author, newChannel, topic);
    var tail := [Stored(IncrementCount)] + CommandDeletion(command);
    var post := Send(newChannel, SubjectEmbed(topic, author.name));
    assert post !in head;
    assert post !in tail;
    assert LegacyCreationEvents(author, topic, command, ticketId, newChannel, welcomeMessage) == head + posts + tail;
    assert command.Some? ==> tail[1] == DeleteMessage(command.value);
  }

  /** The config after the three store steps of `CreateNewTicket`: the
      channel recorded with the new id and the welcome message's id, and the
      counter at the new id; no other key changes. */
  function CreatedConfig(d: Dict, ticketId: int, newChannel: int, welcomeMessage: int): (r: Dict)
    requires Get(d, CountKey) == Some(Atom(Int(ticketId - 1)))
    ensures Get(r, CountKey) == Some(Atom(Int(ticketId)))
    ensures Get(r, IdText(IntId(newChannel))) == Some(Object(map[IdField := Int(ticketId), ReactionField := Int(welcomeMessage)]))
    ensures forall k | k != CountKey && k != IdText(IntId(newChannel)) :: Get(r, k) == Get(d, k)
    ensures Keys(r) == Keys(d) + {IdText(IntId(newChannel))}
    ensures DistinctKeys(d) ==> DistinctKeys(r)
  {
    IntChannelIsNotConfigKey(newChannel);
    var d1 := WithChannel(d, IntId(newChannel), ticketId);
    var d2 := WithReactionMessage(d1, IntId(newChannel), welcomeMessage).value;
    assert map[IdField := Int(ticketId), ReactionField := Null][ReactionField := Int(welcomeMessage)]
        == map[IdField := Int(ticketId), ReactionField := Int(welcomeMessage)];
    WithCountIncremented(d2).value
  }

  /** `GetTicketCount() + 1`: a missing counter is a KeyError, one that is
      not an int a TypeError. */
  function NewTicketId(d: Dict): (r: Result<int>)
    ensures r.Ok? <==> TicketCount(d).Ok? && AddInt(TicketCount(d).value, 1).Ok?
    ensures r.Ok? ==> Get(d, CountKey) == Some(Atom(Int(r.value - 1)))
    ensures CountKey !in Keys(d) ==> r == Err(KeyError(CountKey))
    ensures CountKey in Keys(d) && r.Err? ==> r.error == TypeError
  {
    var count :- TicketCount(d);
    var next :- AddInt(count, 1);
    Ok(next.a.n)
  }

  /** `CreateNewTicket`: the id is the counter plus one; a missing file or
      counter, or a counter that is not an int, raises before anything happens. */
  function CreateNewTicketEffects(file: Option<Dict>, author: Member, subject: Option<string>, command: Option<int>,
                                  newChannel: int, welcomeMessage: int): (r: Result<(seq<Event>, Dict)>)
    ensures file.None? ==> r == Err(FileNotFound)
    ensures file.Some? ==> (r.Ok? <==> NewTicketId(file.value).Ok?)
    ensures file.Some? && r.Err? ==> r.error == NewTicketId(file.value).error
    ensures r.Ok? ==>
              var id := NewTicketId(file.value).value;
              r.value == (LegacyCreationEvents(author, OrDefault(subject, DefaultSubject), command, id, newChannel, welcomeMessage),
                          CreatedConfig(file.value, id, newChannel, welcomeMessage))
  {
    var d :- ReadJson(file);
    var id :- NewTicketId(d);
    Ok((LegacyCreationEvents(author, OrDefault(subject, DefaultSubject), command, id, newChannel, welcomeMessage),
        CreatedConfig(d, id, newChannel, welcomeMessage)))
  }

  /** `CloseTicket`: on a channel that is not in the config only a refusal is
      sent; otherwise the transcript is written, logged with the reason, and
      the channel deleted. The config entry is never removed. */
  function CloseTicketEffects(file: Option<Dict>, channelId: int, reason: Option<string>, history: seq<Message>): (r: Result<seq<Event>>)
    ensures file.None? ==> r == Err(FileNotFound)
    ensures file.Some? && !IsATicket(file.value, IntId(channelId)) ==> r == Ok([Send(channelId, Text(CloseRefusal))])
    ensures file.Some? && IsATicket(file.value, IntId(channelId)) ==>
              (r.Ok? <==> TicketId(file.value, IntId(channelId)).Ok?)
    ensures r.Ok? ==> NoStoreWrites(r.value)
    ensures r.Ok? && IsATicket(file.value, IntId(channelId)) ==>
              var id := Display(TicketId(file.value, IntId(channelId)).value);
              r.value == [WriteFile(TranscriptPath(id), Transcript(id, history, TranscriptLine)),
                          Log("Closed Ticked: Id " + id, "Close Reason: " + OrDefault(reason, DefaultCloseReason), Some(TranscriptPath(id))),
                          DeleteChannel(channelId)]
  {
    var d :- ReadJson(file);
    if !IsATicket(d, IntId(channelId)) then Ok([Send(channelId, Text(CloseRefusal))])
    else
      var why := OrDefault(reason, DefaultCloseReason);
      var ticketId :- TicketId(d, IntId(channelId));
      var id := Display(ticketId);
      Ok([WriteFile(TranscriptPath(id), Transcript(id, history, TranscriptLine)),
          Log("Closed Ticked: Id " + id, "Close Reason: " + why, Some(TranscriptPath(id))),
          DeleteChannel(channelId)])
  }

  /** Closing a ticket the legacy functions created by `LogNewTicketChannel`
      logs its id and leaves the channel in the config. */
  lemma CloseKeepsRecord(d: Dict, channelId: int, ticketId: int, reason: Option<string>, history: seq<Message>)
    ensures var logged := WithChannel(d, IntId(channelId), ticketId);
            var r := CloseTicketEffects(Some(logged), channelId, reason, history);
            && r.Ok? && |r.value| == 3
            && r.value[1].title == "Closed Ticked: Id " + IntToDecimal(ticketId)
            && IsATicket(logged, IntId(channelId))
  {
  }

  /** An entry of a dict with distinct keys is what `Get` answers for its key. */
  lemma EntryOfKey(d: Dict, k: string, v: Value)
    requires DistinctKeys(d) && Get(d, k) == Some(v)
    ensures (k, v) in d
  {
    var i := PositionOfKey(d, k);
    GetAtPosition(d, i);
  }

  /** A ticket created on a well-formed config leaves it well formed, and its
      welcome message is then a valid reaction message. */
  lemma CreatedConfigWellFormed(d: Dict, ticketId: int, newChannel: int, welcomeMessage: int)
    requires WellFormed(d) && Get(d, CountKey) == Some(Atom(Int(ticketId - 1)))
    ensures WellFormed(CreatedConfig(d, ticketId, newChannel, welcomeMessage))
    ensures SomeChannelCarries(CreatedConfig(d, ticketId, newChannel, welcomeMessage), welcomeMessage)
  {
    var r := CreatedConfig(d, ticketId, newChannel, welcomeMessage);
    var key := IdText(IntId(newChannel));
    IntChannelIsNotConfigKey(newChannel);
    forall e | e in r && IsChannelKey(e.0) ensures e.1.Object? && ReactionField in e.1.fields {
      var i :| 0 <= i < |r| && r[i] == e;
      GetAtPosition(r, i);
      if e.0 != key {
        EntryOfKey(d, e.0, e.1);
      }
    }
    EntryOfKey(r, key, Get(r, key).value);
  }

  /** The three store steps of `CreateNewTicket` cannot raise once the id is drawn. */
  lemma CreateNewTicketUnfolds(d: Dict, author: Member, subject: Option<string>, command: Option<int>, newChannel: int, welcomeMessage: int)
    requires TicketCount(d).Ok? && AddInt(TicketCount(d).value, 1).Ok?
    ensures var id := TicketCount(d).value.a.n + 1;
            var d1 := WithChannel(d, IntId(newChannel), id);
            var d2 := WithReactionMessage(d1, IntId(newChannel), welcomeMessage);
            && d2.Ok? && WithCountIncremented(d2.value).Ok?
            && CreatedConfig(d, id, newChannel, welcomeMessage) == WithCountIncremented(d2.value).value
  {
    IntChannelIsNotConfigKey(newChannel);
  }

  // ---------------------------------------------------------------------
  // The config file object

  class LegacyConfig {
    /** The contents of `bot_config/config.json`; None when it does not exist. */
    var file: Option<Dict>

    ghost predicate Valid()
      reads this
    {
      file.Some? ==> DistinctKeys(file.value)
    }

    constructor (existing: Option<Dict>)
      requires existing.Some? ==> DistinctKeys(existing.value)
      ensures Valid() && file == existing
    {
      file := existing;
    }

    method GetTicketCount() returns (r: Result<Value>)
      ensures file.None? ==> r == Err(FileNotFound)
      ensures file.Some? ==> r == TicketCount(file.value)
    {
      var data :- ReadJson(file);
      r := Index(data, CountKey);
    }

    method IncrementTicketCount() returns (o: Outcome)
      requires Valid()
      modifies this
      ensures Valid()
      ensures old(file).None? ==> o == Raised(FileNotFound) && file == old(file)
      ensures old(file).Some? ==>
                match WithCountIncremented(old(file).value)
                case Ok(d) => o == Done && file == Some(d)
                case Err(e) => o == Raised(e) && file == old(file)
    {
      var data := ReadJson(file);
      if data.Err? {
        return Raised(data.error);
      }
      var count := Index(data.value, CountKey);
      if count.Err? {
        return Raised(count.error);
      }
      var next := AddInt(count.value, 1);
      if next.Err? {
        return Raised(next.error);
      }
      file := Some(Set(data.value, CountKey, next.value));
      return Done;
    }

    method GetTicketSetupMessageId() returns (r: Result<Value>)
      ensures file.None? ==> r == Err(FileNotFound)
      ensures file.Some? ==> r == SetupMessageId(file.value)
    {
      var data :- ReadJson(file);
      r := Index(data, SetupKey);
    }

    /** Three assignments to the channel's key: an empty object, then its
        "id", then its "reactionMsgId". */
    method LogNewTicketChannel(channelId: Id, ticketId: int) returns (o: Outcome)
      requires Valid()
      modifies this
      ensures Valid()
      ensures old(file).None? ==> o == Raised(FileNotFound) && file == old(file)
      ensures old(file).Some? ==> o == Done && file == Some(WithChannel(old(file).value, channelId, ticketId))
    {
      var data := ReadJson(file);
      if data.Err? {
        return Raised(data.error);
      }
      var d := data.value;
      var key := IdText(channelId);
      var d1 := Set(d, key, Object(map[]));
      var d2 := Set(d1, key, Object(map[IdField := Int(ticketId)]));
      var d3 := Set(d2, key, Object(map[IdField := Int(ticketId), ReactionField := Null]));
      SetTwice(d, key, Object(map[]), Object(map[IdField := Int(ticketId)]));
      SetTwice(d, key, Object(map[IdField := Int(ticketId)]), ChannelEntry(ticketId));
      file := Some(d3);
      return Done;
    }

    method IsATicketCheck(channelId: Id) returns (r: Result<bool>)
      ensures file.None? ==> r == Err(FileNotFound)
      ensures file.Some? ==> r == Ok(IsATicket(file.value, channelId))
    {
      var data :- ReadJson(file);
      r := Ok(IdText(channelId) in Keys(data));
    }

    method GetTicketId(channelId: Id) returns (r: Result<Scalar>)
      ensures file.None? ==> r == Err(FileNotFound)
      ensures file.Some? ==> r == TicketId(file.value, channelId)
    {
      var data :- ReadJson(file);
      var entry :- Index(data, IdText(channelId));
      r := Subscript(entry, IdField);
    }

    method RemoveTicket(channelId: Id) returns (o: Outcome)
      requires Valid()
      modifies this
      ensures Valid()
      ensures old(file).None? ==> o == Raised(FileNotFound) && file == old(file)
      ensures old(file).Some? ==>
                match WithoutTicket(old(file).value, channelId)
                case Ok(d) => o == Done && file == Some(d)
                case Err(e) => o == Raised(e) && file == old(file)
    {
      var data := ReadJson(file);
      if data.Err? {
        return Raised(data.error);
      }
      var popped := Pop(data.value, IdText(channelId));
      if popped.Err? {
        return Raised(popped.error);
      }
      file := Some(popped.value);
      return Done;
    }

    /** `NewTicketEmbedSender`: the welcome message with a padlock, then its
        id stored on the channel's entry. */
    method NewTicketEmbedSender(author: Member, channelId: int, welcomeMessage: int) returns (trace: seq<Event>, o: Outcome)
      requires Valid()
      modifies this
      ensures Valid()
      ensures |trace| >= 2
      ensures trace[..2] == [Send(channelId, Welcome(author.id, author.displayName)), AddReaction(welcomeMessage, Lock)]
      ensures old(file).None? ==> o == Raised(FileNotFound) && file == old(file) && |trace| == 2
      ensures old(file).Some? ==>
                match WithReactionMessage(old(file).value, IntId(channelId), welcomeMessage)
                case Ok(d) => o == Done && file == Some(d)
                              && trace == [Send(channelId, Welcome(author.id, author.displayName)), AddReaction(welcomeMessage, Lock),
                                           Stored(SetReactionMessage(channelId, welcomeMessage))]
                case Err(e) => o == Raised(e) && file == old(file) && |trace| == 2
    {
      trace := [Send(channelId, Welcome(author.id, author.displayName)), AddReaction(welcomeMessage, Lock)];
      var data := ReadJson(file);
      if data.Err? {
        return trace, Raised(data.error);
      }
      var entry := Index(data.value, IdText(IntId(channelId)));
      if entry.Err? {
        return trace, Raised(entry.error);
      }
      var updated := SetField(entry.value, ReactionField, Int(welcomeMessage));
      if updated.Err? {
        return trace, Raised(updated.error);
      }
      file := Some(Set(data.value, IdText(IntId(channelId)), updated.value));
      trace := trace + [Stored(SetReactionMessage(channelId, welcomeMessage))];
      o := Done;
    }

    /** `CheckIfValidReactionMessage`, with its loop over the channel entries. */
    method CheckIfValidReactionMessage(messageId: int) returns (r: Result<bool>)
      ensures file.None? ==> r == Err(FileNotFound)
      ensures file.Some? ==> r == IsValidReactionMessage(file.value, messageId)
    {
      var data :- ReadJson(file);
      var setup :- Index(data, SetupKey);
      if Matches(IntId(messageId), setup) {
        return Ok(true);
      }
      // the setup key is present, so this first pop cannot raise
      data := Remove(data, SetupKey);
      var popped :- Pop(data, CountKey);
      data := popped;
      var i := 0;
      while i < |data|
        invariant 0 <= i <= |data|
        invariant ScanReactionIds(data[i..], messageId) == ScanReactionIds(data, messageId)
      {
        assert data[i..][1..] == data[i + 1..];
        var field :- Subscript(data[i].1, ReactionField);
        if field == Int(messageId) {
          return Ok(true);
        }
        i := i + 1;
      }
      return Ok(false);
    }

    /** `CreateNewTicket`: `command` is the invoking message, deleted at the
        end when there is one. */
    method CreateNewTicket(author: Member, subject: Option<string>, command: Option<int>, newChannel: int, welcomeMessage: int)
      returns (r: Result<seq<Event>>)
      requires Valid()
      modifies this
      ensures Valid()
      ensures match CreateNewTicketEffects(old(file), author, subject, command, newChannel, welcomeMessage)
              case Ok(p) => r == Ok(p.0) && file == Some(p.1)
              case Err(e) => r == Err(e) && file == old(file)
    {
      var topic := OrDefault(subject, DefaultSubject);
      var count := GetTicketCount();
      if count.Err? {
        assert CreateNewTicketEffects(file, author, subject, command, newChannel, welcomeMessage) == Err(count.error);
        return Err(count.error);
      }
      var next := AddInt(count.value, 1);
      if next.Err? {
        assert CreateNewTicketEffects(file, author, subject, command, newChannel, welcomeMessage) == Err(next.error);
        return Err(next.error);
      }
      var id := next.value.a.n;
      ghost var d := file.value;
      CreateNewTicketUnfolds(d, author, subject, command, newChannel, welcomeMessage);
      ghost var d1 := WithChannel(d, IntId(newChannel), id);
      ghost var d2 := WithReactionMessage(d1, IntId(newChannel), welcomeMessage).value;
      // the channel is created, then recorded, logged and greeted
      var o := LogNewTicketChannel(IntId(newChannel), id);
      assert file == Some(d1);
      var welcome;
      welcome, o := NewTicketEmbedSender(author, newChannel, welcomeMessage);
      assert file == Some(d2);
      o := IncrementTicketCount();
      assert file == Some(WithCountIncremented(d2).value);
      r := Ok(LegacyCreationEvents(author, topic, command, id, newChannel, welcomeMessage));
    }

    /** `ReactionCreateNewTicket`: a ticket for the reacting member, with no subject. */
    method ReactionCreateNewTicket(member: Member, newChannel: int, welcomeMessage: int) returns (r: Result<seq<Event>>)
      requires Valid()
      modifies this
      ensures Valid()
      ensures match CreateNewTicketEffects(old(file), member, None, None, newChannel, welcomeMessage)
              case Ok(p) => r == Ok(p.0) && file == Some(p.1)
              case Err(e) => r == Err(e) && file == old(file)
    {
      r := CreateNewTicket(member, None, None, newChannel, welcomeMessage);
    }

    method CloseTicket(channelId: int, reason: Option<string>, history: seq<Message>) returns (r: Result<seq<Event>>)
      ensures r == CloseTicketEffects(file, channelId, reason, history)
    {
      var isTicket :- IsATicketCheck(IntId(channelId));
      if !isTicket {
        return Ok([Send(channelId, Text(CloseRefusal))]);
      }
      var why := OrDefault(reason, DefaultCloseReason);
      var ticketId :- GetTicketId(IntId(channelId));
      var id := Display(ticketId);
      var trace := [WriteFile(TranscriptPath(id), Transcript(id, history, TranscriptLine))];
      trace := trace + [Log("Closed Ticked: Id " + id, "Close Reason: " + why, Some(TranscriptPath(id)))];
      trace := trace + [DeleteChannel(channelId)];
      assert trace == [WriteFile(TranscriptPath(id), Transcript(id, history, TranscriptLine)),
                       Log("Closed Ticked: Id " + id, "Close Reason: " + why, Some(TranscriptPath(id))),
                       DeleteChannel(channelId)];
      return Ok(trace);
    }

    /** `SetupNewTicketMessage`: reads the config first, then posts the
        services embed in the intake channel, reacts and saves its id. */
    method SetupNewTicketMessage(intakeChannel: Option<int>, messageId: int) returns (r: Result<seq<Event>>)
      requires Valid()
      modifies this
      ensures Valid()
      ensures old(file).None? ==> r == Err(FileNotFound) && file == old(file)
      ensures old(file).Some? && intakeChannel.None? ==> r == Err(AttributeError) && file == old(file)
      ensures old(file).Some? && intakeChannel.Some? ==>
                && r == Ok([Send(intakeChannel.value, ServicesEmbed), AddReaction(messageId, Check), Stored(SaveSetupMessage(messageId))])
                && file == Some(WithSetupMessage(old(file).value, messageId))
    {
      var data := ReadJson(file);
      if data.Err? {
        return Err(data.error);
      }
      if intakeChannel.None? {
        return Err(AttributeError);
      }
      file := Some(Set(data.value, SetupKey, Atom(Int(messageId))));
      return Ok([Send(intakeChannel.value, ServicesEmbed), AddReaction(messageId, Check), Stored(SaveSetupMessage(messageId))]);
    }
  }
}
