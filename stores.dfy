/** The store contract `Ticket` relies on, over either rendition: a `Store` is
    a JSON-backed or an SQLite-backed store, and its `View` is the state the
    contract's queries read (for SQLite, the tables as `initialize` leaves
    them). Only the operations `Ticket` calls are dispatched here; channel and
    message ids reach the store as ints. */
module Stores {
  import opened Common
  import opened PyDict
  import J = JsonStoreModel
  import S = SqlLiteStoreModel

  datatype View = JsonView(d: Dict) | SqlView(db: S.Database)

  /** `check_is_ticket(channel_id)`. */
  predicate ViewIsTicket(v: View, channelId: int) {
    match v
    case JsonView(d) => J.IsTicket(d, IntId(channelId))
    case SqlView(db) => S.HasChannel(S.TicketRows(db), channelId)
  }

  /** `check_message_is_reaction_message(message_id)`: only the JSON store can raise. */
  function ViewIsReactionMessage(v: View, messageId: int): (r: Result<bool>)
    ensures v.SqlView? ==> r == Ok(S.IsReactionMessage(S.TicketRows(v.db), S.ConfigRows(v.db), messageId))
    ensures v.JsonView? && J.WellFormed(v.d) ==>
              r == Ok(Matches(IntId(messageId), J.SetupMessageId(v.d)) || J.SomeTicketCarries(v.d, IntId(messageId)))
  {
    match v
    case JsonView(d) =>
      if J.WellFormed(d) then
        J.ReactionMessageIff(d, IntId(messageId));
        J.IsReactionMessage(d, IntId(messageId))
      else
        J.IsReactionMessage(d, IntId(messageId))
    case SqlView(db) => Ok(S.IsReactionMessage(S.TicketRows(db), S.ConfigRows(db), messageId))
  }

  /** `get_next_ticket_id()`: the id handed out and the state left behind. */
  function ViewNextTicketId(v: View): (r: Result<(int, View)>)
    ensures v.JsonView? ==> (r.Ok? <==> J.CountOf(v.d).Some?)
    ensures v.JsonView? && r.Ok? ==> r.value.0 == J.CountOf(v.d).value + 1
                                     && r.value.1.JsonView? && J.CountOf(r.value.1.d) == Some(r.value.0)
    ensures v.SqlView? ==> (r.Ok? <==> |S.ConfigRows(v.db)| > 0)
    ensures v.SqlView? && r.Ok? ==> r.value.0 == S.ConfigRows(v.db)[0].ticketCount + 1
                                    && r.value.1.SqlView? && |S.ConfigRows(r.value.1.db)| > 0
                                    && S.ConfigRows(r.value.1.db)[0].ticketCount == r.value.0
    ensures r.Ok? ==> forall c :: ViewIsTicket(r.value.1, c) == ViewIsTicket(v, c)
  {
    match v
    case JsonView(d) =>
      var p :- J.NextTicketId(d);
      assert forall c :: J.IsTicket(p.1, IntId(c)) == J.IsTicket(d, IntId(c)) by {
        forall c ensures J.IsTicket(p.1, IntId(c)) == J.IsTicket(d, IntId(c)) {
          J.IntChannelIsNotConfigKey(c);
          assert Get(p.1, IdText(IntId(c))) == Get(d, IdText(IntId(c)));
        }
      }
      Ok((p.0.a.n, JsonView(p.1)))
    case SqlView(db) =>
      var p :- S.NextTicketId(S.ConfigRows(db));
      Ok((p.0, SqlView(S.Init(db).(config := Some(p.1)))))
  }

  /** `create_ticket(channel_id, ticket_id, reaction_message_id)`. */
  function ViewCreateTicket(v: View, channelId: int, ticketId: int, reactionMessageId: int): (r: View)
    ensures r.JsonView? == v.JsonView?
    ensures ViewIsTicket(r, channelId)
    ensures forall c | c != channelId :: ViewIsTicket(r, c) == ViewIsTicket(v, c)
  {
    match v
    case JsonView(d) =>
      var r := J.WithTicket(d, IntId(channelId), ticketId, IntId(reactionMessageId));
      assert forall c | c != channelId :: J.IsTicket(r, IntId(c)) == J.IsTicket(d, IntId(c)) by {
        forall c | c != channelId ensures J.IsTicket(r, IntId(c)) == J.IsTicket(d, IntId(c)) {
          if IntToDecimal(c) == IntToDecimal(channelId) {
            IntToDecimalInjective(c, channelId);
          }
        }
      }
      JsonView(r)
    case SqlView(db) =>
      var rows := S.TicketRows(db) + [S.Row(channelId, ticketId, reactionMessageId)];
      assert rows[|rows| - 1] in rows;
      assert forall c | c != channelId :: S.HasChannel(rows, c) == S.HasChannel(S.TicketRows(db), c) by {
        forall c | c != channelId ensures S.HasChannel(rows, c) == S.HasChannel(S.TicketRows(db), c) {
          if S.HasChannel(rows, c) {
            var w :| w in rows && w.channelId == c;
            assert w in S.TicketRows(db);
          }
        }
      }
      SqlView(S.Init(db).(tickets := Some(rows)))
  }

  /** `get_ticket_id(channel_id)`: the JSON store answers None for an unknown
      channel, the SQLite store raises. */
  function ViewTicketId(v: View, channelId: int): (r: Result<Scalar>)
    ensures v.JsonView? && !ViewIsTicket(v, channelId) ==> r == Ok(Null)
    ensures v.SqlView? ==> (r.Ok? <==> ViewIsTicket(v, channelId))
    ensures v.SqlView? && r.Ok? ==> r.value.Int?
  {
    match v
    case JsonView(d) => J.TicketId(d, IntId(channelId))
    case SqlView(db) =>
      var id :- S.TicketIdOf(S.TicketRows(db), channelId);
      Ok(Int(id))
  }

  /** `save_new_ticket_message(message_id)`. */
  function ViewSaveSetup(v: View, messageId: int): (r: View)
    ensures forall c :: ViewIsTicket(r, c) == ViewIsTicket(v, c)
    ensures v.JsonView? || |S.ConfigRows(v.db)| > 0 ==> ViewIsReactionMessage(r, messageId) == Ok(true)
  {
    match v
    case JsonView(d) =>
      var r := J.WithSetupMessage(d, messageId);
      assert forall c :: J.IsTicket(r, IntId(c)) == J.IsTicket(d, IntId(c)) by {
        forall c ensures J.IsTicket(r, IntId(c)) == J.IsTicket(d, IntId(c)) {
          J.IntChannelIsNotConfigKey(c);
        }
      }
      JsonView(r)
    case SqlView(db) =>
      var config := S.WithSetupMessage(S.ConfigRows(db), messageId);
      assert |config| > 0 ==> config[0] in config;
      SqlView(S.Init(db).(config := Some(config)))
  }

  /** After `create_ticket`, `get_ticket_id` answers the new id, except that
      the SQLite store keeps answering the id of an earlier row for the same
      channel. */
  lemma CreateThenTicketId(v: View, channelId: int, ticketId: int, reactionMessageId: int)
    ensures ViewTicketId(ViewCreateTicket(v, channelId, ticketId, reactionMessageId), channelId)
            == if v.SqlView? && ViewIsTicket(v, channelId) then ViewTicketId(v, channelId) else Ok(Int(ticketId))
  {
    if v.SqlView? {
      S.CreateThenTicketId(S.TicketRows(v.db), channelId, ticketId, reactionMessageId);
    }
  }

  // ---------------------------------------------------------------------
  // The store object

  datatype Store = JsonBacked(json: J.JsonStore) | SqlBacked(sql: S.SqlLiteStore) {
    function Repr(): set<object> {
      match this
      case JsonBacked(j) => {j}
      case SqlBacked(s) => {s}
    }

    ghost predicate Valid()
      reads Repr()
    {
      match this
      case JsonBacked(j) => j.Valid()
      case SqlBacked(s) => s.Valid()
    }

    function View(): View
      reads Repr()
    {
      match this
      case JsonBacked(j) => JsonView(j.Config())
      case SqlBacked(s) => SqlView(S.Init(s.database))
    }
  }

  method CheckIsTicket(db: Store, channelId: int) returns (b: bool)
    requires db.Valid()
    modifies db.Repr()
    ensures db.Valid() && db.View() == old(db.View())
    ensures b == ViewIsTicket(old(db.View()), channelId)
  {
    match db
    case JsonBacked(j) => b := j.CheckIsTicket(IntId(channelId));
    case SqlBacked(s) => b := s.CheckIsTicket(channelId);
  }

  method CheckMessageIsReactionMessage(db: Store, messageId: int) returns (r: Result<bool>)
    requires db.Valid()
    modifies db.Repr()
    ensures db.Valid() && db.View() == old(db.View())
    ensures r == ViewIsReactionMessage(old(db.View()), messageId)
  {
    match db
    case JsonBacked(j) => r := j.CheckMessageIsReactionMessage(IntId(messageId));
    case SqlBacked(s) =>
      var b := s.CheckMessageIsReactionMessage(messageId);
      r := Ok(b);
  }

  method GetNextTicketId(db: Store) returns (r: Result<int>)
    requires db.Valid()
    modifies db.Repr()
    ensures db.Valid()
    ensures match ViewNextTicketId(old(db.View()))
            case Ok(p) => r == Ok(p.0) && db.View() == p.1
            case Err(e) => r == Err(e) && db.View() == old(db.View())
  {
    match db
    case JsonBacked(j) =>
      var v := j.GetNextTicketId();
      if v.Err? {
        return Err(v.error);
      }
      if !(v.value.Atom? && v.value.a.Int?) {
        return Err(TypeError);
      }
      r := Ok(v.value.a.n);
    case SqlBacked(s) => r := s.GetNextTicketId();
  }

  method CreateTicket(db: Store, channelId: int, ticketId: int, reactionMessageId: int)
    requires db.Valid()
    modifies db.Repr()
    ensures db.Valid()
    ensures db.View() == ViewCreateTicket(old(db.View()), channelId, ticketId, reactionMessageId)
  {
    match db
    case JsonBacked(j) => j.CreateTicket(IntId(channelId), ticketId, IntId(reactionMessageId));
    case SqlBacked(s) => s.CreateTicket(channelId, ticketId, reactionMessageId);
  }

  method GetTicketId(db: Store, channelId: int) returns (r: Result<Scalar>)
    requires db.Valid()
    modifies db.Repr()
    ensures db.Valid() && db.View() == old(db.View())
    ensures r == ViewTicketId(old(db.View()), channelId)
  {
    match db
    case JsonBacked(j) => r := j.GetTicketId(IntId(channelId));
    case SqlBacked(s) =>
      var id := s.GetTicketId(channelId);
      if id.Err? {
        return Err(id.error);
      }
      r := Ok(Int(id.value));
  }

  method SaveNewTicketMessage(db: Store, messageId: int)
    requires db.Valid()
    modifies db.Repr()
    ensures db.Valid()
    ensures db.View() == ViewSaveSetup(old(db.View()), messageId)
  {
    match db
    case JsonBacked(j) => j.SaveNewTicketMessage(messageId);
    case SqlBacked(s) => s.SaveNewTicketMessage(messageId);
  }
}
