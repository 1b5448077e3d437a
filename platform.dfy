/** What the bot does on the chat platform, as a trace of events, and what the
    platform hands it: members, channel history, reaction payloads. Ids the
    platform allocates (a new channel, a sent message) are parameters of the
    operations that receive them. */
module Platform {
  import opened Common

  /** The two reaction emojis: the padlock asks to close, the check mark confirms. */
  const Lock := "\U{1F512}"
  const Check := "\U{2705}"

  /** A member as the platform hands it over; `mention` is the platform's own
      rendering of a mention of them, taken as it comes. */
  datatype Member = Member(id: int, name: string, displayName: string, mention: string)

  /** A message of a channel's history, its date already formatted `dd/mm/YYYY`. */
  datatype Message = Message(date: string, authorName: string, content: string)

  /** A raw reaction event: who reacted with what, on which message of which
      channel; `member` is absent when the platform did not attach it. */
  datatype Payload = Payload(userId: int, emoji: string, channelId: int, messageId: int, member: Option<Member>)

  /** What is posted in a channel. */
  datatype Post =
    | Text(text: string)
      /** The welcome embed greeting `displayName`, mentioning the author and the staff role. */
    | Welcome(authorId: int, displayName: string)
      /** The "Provided subject for ticket:" embed. */
    | SubjectEmbed(subject: string, authorName: string)
      /** The "Our Services" embed inviting a check-mark reaction. */
    | ServicesEmbed

  /** A write to the ticket store, recorded where it happens in the run. */
  datatype Mutation =
    | DrawTicketId(ticketId: int)
    | PersistTicket(channelId: int, ticketId: int, reactionMessageId: Option<int>)
    | SetReactionMessage(channelId: int, messageId: int)
    | IncrementCount
    | SaveSetupMessage(messageId: int)

  datatype Event =
    | CreateChannel(name: string, requesterId: int, channelId: int)
    | Send(channelId: int, post: Post)
    | AddReaction(messageId: int, emoji: string)
    | RemoveReaction(messageId: int, emoji: string, memberId: int)
    | SetPermissions(channelId: int, memberId: int, read: bool, send: bool)
    | WriteFile(path: string, text: string)
      /** An embed in the log channel, followed by the attached file when there is one. */
    | Log(title: string, body: string, attachment: Option<string>)
    | DeleteChannel(channelId: int)
    | DeleteMessage(messageId: int)
    | Stored(mutation: Mutation)

  /** A channel mention, `<#id>`. */
  function ChannelMention(id: int): string {
    "<#" + IntToDecimal(id) + ">"
  }

  /** The body of the "Created ticket" log entry; `channelName` is the name
      the log gives the new channel. */
  function CreationLogBody(author: Member, channelId: int, channelName: string, subject: string): string {
    "Ticket Creator: " + author.mention + "(`" + IntToDecimal(author.id) + "`)\nChannel: "
    + ChannelMention(channelId) + "(" + channelName + ")\nSubject: " + subject
  }

  /** The first lines of a closed ticket's transcript file. */
  function TranscriptHeader(ticketId: string): string {
    "Here is the message log for ticket ID " + ticketId + "\n----------\n\n"
  }

  /** Where a closed ticket's transcript is written. */
  function TranscriptPath(ticketId: string): string {
    "tickets/" + ticketId + ".txt"
  }

  /** One transcript line per history message, in order, rendered by `line`. */
  function TranscriptLines(history: seq<Message>, line: Message -> string): (lines: seq<string>)
    ensures |lines| == |history|
    ensures forall i | 0 <= i < |history| :: lines[i] == line(history[i])
  {
    seq(|history|, i requires 0 <= i < |history| => line(history[i]))
  }

  /** The file written on close: the header, then the lines joined with " ". */
  function Transcript(ticketId: string, history: seq<Message>, line: Message -> string): (text: string)
    ensures TranscriptHeader(ticketId) <= text
    ensures history == [] ==> text == TranscriptHeader(ticketId)
    ensures |history| == 1 ==> text == TranscriptHeader(ticketId) + line(history[0])
  {
    TranscriptHeader(ticketId) + Join(" ", TranscriptLines(history, line))
  }

  /** One more message in the history adds exactly a space and its line. */
  lemma TranscriptAppend(ticketId: string, history: seq<Message>, m: Message, line: Message -> string)
    requires history != []
    ensures Transcript(ticketId, history + [m], line) == Transcript(ticketId, history, line) + " " + line(m)
  {
    assert TranscriptLines(history + [m], line) == TranscriptLines(history, line) + [line(m)];
    JoinAppend(" ", TranscriptLines(history, line), line(m));
  }

  /** A trace that writes nothing to the store. */
  predicate NoStoreWrites(trace: seq<Event>) {
    forall i | 0 <= i < |trace| :: !trace[i].Stored?
  }

  /** The store writes of a trace, in order. */
  function StoreWrites(trace: seq<Event>): (writes: seq<Mutation>)
    ensures |writes| <= |trace|
    ensures NoStoreWrites(trace) ==> writes == []
  {
    if trace == [] then []
    else (if trace[0].Stored? then [trace[0].mutation] else []) + StoreWrites(trace[1..])
  }

  /** A mutation is among a trace's store writes exactly when the trace stores it. */
  lemma {:induction false} StoreWritesMembers(trace: seq<Event>, m: Mutation)
    ensures m in StoreWrites(trace) <==> Stored(m) in trace
    decreases |trace|
  {
    if trace != [] {
      StoreWritesMembers(trace[1..], m);
      assert trace == [trace[0]] + trace[1..];
    }
  }

  /** The store writes of two traces run one after the other. */
  lemma {:induction false} StoreWritesAppend(a: seq<Event>, b: seq<Event>)
    ensures StoreWrites(a + b) == StoreWrites(a) + StoreWrites(b)
    decreases |a|
  {
    if a == [] {
      assert a + b == b;
    } else {
      assert (a + b)[0] == a[0] && (a + b)[1..] == a[1..] + b;
      StoreWritesAppend(a[1..], b);
    }
  }

  /** A single write. */
  lemma StoreWritesOne(m: Mutation)
    ensures StoreWrites([Stored(m)]) == [m]
  {
    assert [Stored(m)][1..] == [];
  }

  /** A trace followed by one write and events that write nothing. */
  lemma StoreWritesThenWrite(x: seq<Event>, m: Mutation, e: seq<Event>)
    requires NoStoreWrites(e)
    ensures StoreWrites(x + [Stored(m)] + e) == StoreWrites(x) + [m]
  {
    StoreWritesAppend(x + [Stored(m)], e);
    StoreWritesAppend(x, [Stored(m)]);
    StoreWritesOne(m);
  }

  /** A write, events that write nothing, a second write, more such events. */
  lemma StoreWritesTwo(m1: Mutation, b: seq<Event>, c: seq<Event>, m2: Mutation, e: seq<Event>)
    requires NoStoreWrites(b) && NoStoreWrites(c) && NoStoreWrites(e)
    ensures StoreWrites([Stored(m1)] + b + c + [Stored(m2)] + e) == [m1, m2]
  {
    var x0 := [Stored(m1)] + b;
    assert StoreWrites(x0) == [m1] by {
      StoreWritesAppend([Stored(m1)], b);
      StoreWritesOne(m1);
    }
    assert StoreWrites(x0 + c) == [m1] by {
      StoreWritesAppend(x0, c);
    }
    StoreWritesThenWrite(x0 + c, m2, e);
  }

  /** Three writes, each followed by events that write nothing. */
  lemma StoreWritesThree(a: seq<Event>, m1: Mutation, b: seq<Event>, m2: Mutation, c: seq<Event>, m3: Mutation, e: seq<Event>)
    requires NoStoreWrites(a) && NoStoreWrites(b) && NoStoreWrites(c) && NoStoreWrites(e)
    ensures StoreWrites(a + [Stored(m1)] + b + [Stored(m2)] + c + [Stored(m3)] + e) == [m1, m2, m3]
  {
    var x1 := a + [Stored(m1)] + b;
    var x2 := x1 + [Stored(m2)] + c;
    assert StoreWrites(x1) == [m1] by {
      StoreWritesThenWrite(a, m1, b);
    }
    assert StoreWrites(x2) == [m1, m2] by {
      StoreWritesThenWrite(x1, m2, c);
    }
    StoreWritesThenWrite(x2, m3, e);
    assert [m1, m2] + [m3] == [m1, m2, m3];
  }
}
