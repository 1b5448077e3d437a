/** `SqlLiteStore`: the ticket store kept in an SQLite database file with two
    tables, `tickets (channel_id, ticket_id, reaction_message_id)` and
    `config (ticket_setup_message_id, ticket_count)`. Each table is its list of
    rows in insertion order, which is the order a plain `SELECT` without
    `ORDER BY` returns them in; a table the file does not have yet is None.
    Every operation first creates whichever table is missing (a fresh `config`
    gets the single row `(0, 0)`), once per store object. */
module SqlLiteStoreModel {
  import opened Common

  datatype Row = Row(channelId: int, ticketId: int, reactionMessageId: int)
  datatype ConfigRow = ConfigRow(setupMessageId: int, ticketCount: int)
  datatype Database = Database(tickets: Option<seq<Row>>, config: Option<seq<ConfigRow>>)

  const DefaultDatabaseName := "storage.db"

  // ---------------------------------------------------------------------
  // The database file

  /** The name of the database file: `database_name or "storage.db"`, with
      ".db" appended when it does not already end so. */
  function DatabaseName(databaseName: Option<string>): (name: string)
    ensures EndsWith(name, ".db")
    ensures var given := OrDefault(databaseName, DefaultDatabaseName);
            given <= name && |name| <= |given| + 3
    ensures EndsWith(OrDefault(databaseName, DefaultDatabaseName), ".db") ==> name == OrDefault(databaseName, DefaultDatabaseName)
    ensures !EndsWith(OrDefault(databaseName, DefaultDatabaseName), ".db") ==> name == OrDefault(databaseName, DefaultDatabaseName) + ".db"
  {
    var given := OrDefault(databaseName, DefaultDatabaseName);
    if EndsWith(given, ".db") then given else given + ".db"
  }

  /** `db_file`: the storage path stripped of every leading and trailing "/",
      joined with the database name. A missing storage path has no `.strip`. */
  function DatabaseFile(storagePath: Option<string>, databaseName: Option<string>): (r: Result<string>)
    ensures r.Err? <==> storagePath.None?
    ensures r.Err? ==> r.error == AttributeError
    ensures r.Ok? ==> EndsWith(r.value, DatabaseName(databaseName))
    ensures r.Ok? && !StartsWith(DatabaseName(databaseName), "/") ==> !StartsWith(r.value, "/")
    ensures r.Ok? && !StartsWith(DatabaseName(databaseName), "/") ==> Strip(storagePath.value, '/') <= r.value
  {
    match storagePath
    case None => Err(AttributeError)
    case Some(p) => Ok(PathJoin(Strip(p, '/'), DatabaseName(databaseName)))
  }

  // ---------------------------------------------------------------------
  // Tables

  /** `initialize`: creates an empty `tickets` table and a `config` table
      holding `(0, 0)` where they are missing, and keeps existing tables. */
  function Init(db: Database): (r: Database)
    ensures r.tickets.Some? && r.config.Some?
    ensures db.tickets.Some? ==> r.tickets == db.tickets
    ensures db.tickets.None? ==> r.tickets == Some([])
    ensures db.config.Some? ==> r.config == db.config
    ensures db.config.None? ==> r.config == Some([ConfigRow(0, 0)])
  {
    Database(Some(db.tickets.GetOr([])), Some(db.config.GetOr([ConfigRow(0, 0)])))
  }

  function TicketRows(db: Database): seq<Row> {
    Init(db).tickets.value
  }

  function ConfigRows(db: Database): seq<ConfigRow> {
    Init(db).config.value
  }

  /** Initialising twice is initialising once. */
  lemma InitIdempotent(db: Database)
    ensures Init(Init(db)) == Init(db)
  {
  }

  /** `check_is_ticket`: some row has this channel. */
  predicate HasChannel(rows: seq<Row>, channelId: int) {
    exists row | row in rows :: row.channelId == channelId
  }

  /** `check_message_is_reaction_message`: some config row has it as the setup
      message, or some ticket row as its reaction message. */
  predicate IsReactionMessage(rows: seq<Row>, config: seq<ConfigRow>, messageId: int) {
    (exists c | c in config :: c.setupMessageId == messageId)
    || (exists row | row in rows :: row.reactionMessageId == messageId)
  }

  /** The row `fetchone` returns for `WHERE channel_id = c`: the first one. */
  function FirstRowOf(rows: seq<Row>, channelId: int): (r: Option<Row>)
    ensures r.None? <==> !HasChannel(rows, channelId)
    ensures r.Some? ==> r.value in rows && r.value.channelId == channelId
    decreases |rows|
  {
    if rows == [] then None
    else if rows[0].channelId == channelId then Some(rows[0])
    else FirstRowOf(rows[1..], channelId)
  }

  /** The row found is the first of its channel: no earlier row has it. */
  lemma {:induction false} FirstRowOfIsFirst(rows: seq<Row>, channelId: int) returns (i: nat)
    requires HasChannel(rows, channelId)
    ensures i < |rows| && rows[i] == FirstRowOf(rows, channelId).value
    ensures !HasChannel(rows[..i], channelId)
    decreases |rows|
  {
    if rows[0].channelId == channelId {
      i := 0;
    } else {
      var w :| w in rows && w.channelId == channelId;
      assert w in rows[1..];
      var k := FirstRowOfIsFirst(rows[1..], channelId);
      i := k + 1;
      assert rows[..i] == [rows[0]] + rows[1..][..k];
    }
  }

  /** `get_ticket_id`: the first matching row's ticket id; with no row,
      `fetchone()` is None and `None[0]` raises TypeError. */
  function TicketIdOf(rows: seq<Row>, channelId: int): (r: Result<int>)
    ensures r.Err? <==> !HasChannel(rows, channelId)
    ensures r.Err? ==> r.error == TypeError
    ensures r.Ok? ==> Row(channelId, r.value, FirstRowOf(rows, channelId).value.reactionMessageId) in rows
    ensures r.Ok? ==> r.value == FirstRowOf(rows, channelId).value.ticketId
  {
    match FirstRowOf(rows, channelId)
    case None => Err(TypeError)
    case Some(row) => Ok(row.ticketId)
  }

  /** The first config row, read by `get_config`, `get_ticket_count`,
      `get_ticket_setup_message_id` and `get_next_ticket_id`; TypeError when
      the table is empty. */
  function FirstConfig(config: seq<ConfigRow>): (r: Result<ConfigRow>)
    ensures r.Ok? <==> |config| > 0
    ensures r.Ok? ==> r.value == config[0]
    ensures r.Err? ==> r.error == TypeError
  {
    if config == [] then Err(TypeError) else Ok(config[0])
  }

  /** `UPDATE config SET ticket_count = ticket_count + delta`: every row. */
  function ShiftCount(config: seq<ConfigRow>, delta: int): (r: seq<ConfigRow>)
    ensures |r| == |config|
    ensures forall i | 0 <= i < |r| :: r[i].setupMessageId == config[i].setupMessageId
                                       && r[i].ticketCount == config[i].ticketCount + delta
  {
    seq(|config|, i requires 0 <= i < |config| => ConfigRow(config[i].setupMessageId, config[i].ticketCount + delta))
  }

  /** `UPDATE config SET ticket_setup_message_id = m`: every row. */
  function WithSetupMessage(config: seq<ConfigRow>, messageId: int): (r: seq<ConfigRow>)
    ensures |r| == |config|
    ensures forall i | 0 <= i < |r| :: r[i] == ConfigRow(messageId, config[i].ticketCount)
  {
    seq(|config|, i requires 0 <= i < |config| => ConfigRow(messageId, config[i].ticketCount))
  }

  /** `DELETE FROM tickets WHERE channel_id = c`: every row of that channel
      goes, every other row stays, in order. */
  function WithoutChannel(rows: seq<Row>, channelId: int): (r: seq<Row>)
    ensures !HasChannel(r, channelId)
    ensures forall row :: row in r <==> row in rows && row.channelId != channelId
    ensures !HasChannel(rows, channelId) ==> r == rows
    ensures |r| <= |rows|
    decreases |rows|
  {
    if rows == [] then []
    else if rows[0].channelId == channelId then WithoutChannel(rows[1..], channelId)
    else [rows[0]] + WithoutChannel(rows[1..], channelId)
  }

  /** `get_next_ticket_id`: increment every config row, then read the first
      row's count. */
  function NextTicketId(config: seq<ConfigRow>): (r: Result<(int, seq<ConfigRow>)>)
    ensures r.Ok? <==> |config| > 0
    ensures r.Ok? ==> r.value.0 == config[0].ticketCount + 1
                      && r.value.1 == ShiftCount(config, 1)
  {
    var shifted := ShiftCount(config, 1);
    var first :- FirstConfig(shifted);
    Ok((first.ticketCount, shifted))
  }

  // ---------------------------------------------------------------------
  // Properties that relate several operations

  /** `create_ticket` only appends: for a channel that already has a row, the
      earlier row keeps answering `get_ticket_id`. */
  lemma {:induction false} InsertKeepsFirstRow(rows: seq<Row>, row: Row, channelId: int)
    requires HasChannel(rows, channelId)
    ensures FirstRowOf(rows + [row], channelId) == FirstRowOf(rows, channelId)
    decreases |rows|
  {
    if rows[0].channelId != channelId {
      assert (rows + [row])[1..] == rows[1..] + [row];
      var w :| w in rows && w.channelId == channelId;
      assert w in rows[1..];
      InsertKeepsFirstRow(rows[1..], row, channelId);
    }
  }

  /** For a channel with no row yet, the appended row is the one found. */
  lemma {:induction false} InsertNewChannelIsFound(rows: seq<Row>, row: Row)
    requires !HasChannel(rows, row.channelId)
    ensures FirstRowOf(rows + [row], row.channelId) == Some(row)
    decreases |rows|
  {
    if rows != [] {
      assert rows[0] in rows;
      assert (rows + [row])[1..] == rows[1..] + [row];
      InsertNewChannelIsFound(rows[1..], row);
    }
  }

  /** Creating a ticket and asking for its id: the new id for a new channel,
      the old id for a channel that already had a row. */
  lemma CreateThenTicketId(rows: seq<Row>, channelId: int, ticketId: int, reactionMessageId: int)
    ensures TicketIdOf(rows + [Row(channelId, ticketId, reactionMessageId)], channelId)
            == if HasChannel(rows, channelId) then TicketIdOf(rows, channelId) else Ok(ticketId)
  {
    if HasChannel(rows, channelId) {
      InsertKeepsFirstRow(rows, Row(channelId, ticketId, reactionMessageId), channelId);
    } else {
      InsertNewChannelIsFound(rows, Row(channelId, ticketId, reactionMessageId));
    }
  }

  /** Removing a channel leaves every other channel's answer unchanged. */
  lemma {:induction false} RemoveKeepsOtherChannels(rows: seq<Row>, channelId: int, other: int)
    requires other != channelId
    ensures FirstRowOf(WithoutChannel(rows, channelId), other) == FirstRowOf(rows, other)
    decreases |rows|
  {
    if rows != [] {
      RemoveKeepsOtherChannels(rows[1..], channelId, other);
    }
  }

  /** `issued` successive `get_next_ticket_id` calls, as the list of ids returned. */
  function DrawIds(config: seq<ConfigRow>, issued: nat): Result<seq<int>>
    decreases issued
  {
    if issued == 0 then Ok([])
    else
      var p :- NextTicketId(config);
      var rest :- DrawIds(p.1, issued - 1);
      Ok([p.0] + rest)
  }

  /** The ids start, start+1, ...: distinct and strictly increasing. */
  function IdsFrom(start: int, count: nat): (r: seq<int>)
    ensures |r| == count
    ensures forall i | 0 <= i < count :: r[i] == start + i
    decreases count
  {
    if count == 0 then [] else [start] + IdsFrom(start + 1, count - 1)
  }

  /** With a config row whose count is n, successive draws return n+1, n+2, ... */
  lemma {:induction false} DrawIdsCountUp(config: seq<ConfigRow>, issued: nat)
    requires |config| > 0
    ensures DrawIds(config, issued) == Ok(IdsFrom(config[0].ticketCount + 1, issued))
    decreases issued
  {
    if issued > 0 {
      var p := NextTicketId(config).value;
      DrawIdsCountUp(p.1, issued - 1);
    }
  }

  /** On a database without a `config` table, the ids handed out are 1, 2, 3, ...
      and the message id 0 counts as a reaction message until a setup message
      is saved. */
  lemma FreshDatabase(issued: nat)
    ensures DrawIds(ConfigRows(Database(None, None)), issued).Ok?
    ensures |DrawIds(ConfigRows(Database(None, None)), issued).value| == issued
    ensures forall i | 0 <= i < issued :: DrawIds(ConfigRows(Database(None, None)), issued).value[i] == i + 1
    ensures IsReactionMessage(TicketRows(Database(None, None)), ConfigRows(Database(None, None)), 0)
  {
    DrawIdsCountUp(ConfigRows(Database(None, None)), issued);
    assert ConfigRows(Database(None, None))[0] == ConfigRow(0, 0);
  }

  /** After a setup message is saved (on a non-empty config), it is recognised,
      and a previous setup message only if some ticket row carries it. */
  lemma SaveSetupMessage(rows: seq<Row>, config: seq<ConfigRow>, saved: int, other: int)
    requires |config| > 0 && other != saved
    ensures IsReactionMessage(rows, WithSetupMessage(config, saved), saved)
    ensures IsReactionMessage(rows, WithSetupMessage(config, saved), other)
            <==> exists row | row in rows :: row.reactionMessageId == other
  {
    assert WithSetupMessage(config, saved)[0] in WithSetupMessage(config, saved);
  }

  // ---------------------------------------------------------------------
  // The store object

  class SqlLiteStore {
    /** `db_file`, relative to the working directory. */
    const dbFile: string
    /** `db`: the working directory joined with `db_file`. */
    const dbPath: string
    /** The contents of the database file. */
    var database: Database
    var isInitialized: bool

    ghost predicate Valid()
      reads this
    {
      isInitialized ==> database.tickets.Some? && database.config.Some?
    }

    /** `__init__`: `cwd` stands for the repository directory the source
        derives from its own file's location. */
    constructor (storagePath: string, databaseName: Option<string>, cwd: string, existing: Database)
      ensures Valid() && !isInitialized && database == existing
      ensures DatabaseFile(Some(storagePath), databaseName) == Ok(dbFile)
      ensures dbPath == PathJoin(cwd, dbFile)
    {
      var file := PathJoin(Strip(storagePath, '/'), DatabaseName(databaseName));
      dbFile := file;
      dbPath := PathJoin(cwd, file);
      database := existing;
      isInitialized := false;
    }

    method Initialize()
      requires Valid()
      modifies this
      ensures Valid() && isInitialized
      ensures database == Init(old(database))
    {
      if isInitialized {
        return;
      }
      if database.tickets.None? {
        database := database.(tickets := Some([]));
      }
      if database.config.None? {
        database := database.(config := Some([ConfigRow(0, 0)]));
      }
      isInitialized := true;
    }

    method CheckIsTicket(channelId: int) returns (b: bool)
      requires Valid()
      modifies this
      ensures Valid() && isInitialized && database == Init(old(database))
      ensures b == HasChannel(TicketRows(old(database)), channelId)
    {
      Initialize();
      b := FirstRowOf(database.tickets.value, channelId).Some?;
    }

    method CheckMessageIsReactionMessage(messageId: int) returns (b: bool)
      requires Valid()
      modifies this
      ensures Valid() && isInitialized && database == Init(old(database))
      ensures b == IsReactionMessage(TicketRows(old(database)), ConfigRows(old(database)), messageId)
    {
      Initialize();
      if exists c | c in database.config.value :: c.setupMessageId == messageId {
        return true;
      }
      b := exists row | row in database.tickets.value :: row.reactionMessageId == messageId;
    }

    method GetNextTicketId() returns (r: Result<int>)
      requires Valid()
      modifies this
      ensures Valid() && isInitialized
      ensures database == Init(old(database)).(config := Some(ShiftCount(ConfigRows(old(database)), 1)))
      ensures match NextTicketId(ConfigRows(old(database)))
              case Ok(p) => r == Ok(p.0)
              case Err(e) => r == Err(e)
    {
      Initialize();
      IncrementTicketCount();
      var first := FirstConfig(database.config.value);
      if first.Err? {
        return Err(first.error);
      }
      return Ok(first.value.ticketCount);
    }

    method CreateTicket(channelId: int, ticketId: int, reactionMessageId: int)
      requires Valid()
      modifies this
      ensures Valid() && isInitialized
      ensures database == Init(old(database)).(tickets := Some(TicketRows(old(database)) + [Row(channelId, ticketId, reactionMessageId)]))
    {
      Initialize();
      database := database.(tickets := Some(database.tickets.value + [Row(channelId, ticketId, reactionMessageId)]));
    }

    method DecrementTicketCount()
      requires Valid()
      modifies this
      ensures Valid() && isInitialized
      ensures database == Init(old(database)).(config := Some(ShiftCount(ConfigRows(old(database)), -1)))
    {
      Initialize();
      database := database.(config := Some(ShiftCount(database.config.value, -1)));
    }

    /** `get_config` returns only the first column of the first row: the
        setup message id. */
    method GetConfig() returns (r: Result<int>)
      requires Valid()
      modifies this
      ensures Valid() && isInitialized && database == Init(old(database))
      ensures r.Ok? <==> |ConfigRows(old(database))| > 0
      ensures r.Ok? ==> r.value == ConfigRows(old(database))[0].setupMessageId
      ensures r.Err? ==> r.error == TypeError
    {
      Initialize();
      var first := FirstConfig(database.config.value);
      if first.Err? {
        return Err(first.error);
      }
      return Ok(first.value.setupMessageId);
    }

    method GetTicketCount() returns (r: Result<int>)
      requires Valid()
      modifies this
      ensures Valid() && isInitialized && database == Init(old(database))
      ensures r.Ok? <==> |ConfigRows(old(database))| > 0
      ensures r.Ok? ==> r.value == ConfigRows(old(database))[0].ticketCount
      ensures r.Err? ==> r.error == TypeError
    {
      Initialize();
      var first := FirstConfig(database.config.value);
      if first.Err? {
        return Err(first.error);
      }
      return Ok(first.value.ticketCount);
    }

    method GetTicketId(channelId: int) returns (r: Result<int>)
      requires Valid()
      modifies this
      ensures Valid() && isInitialized && database == Init(old(database))
      ensures r == TicketIdOf(TicketRows(old(database)), channelId)
    {
      Initialize();
      var row := FirstRowOf(database.tickets.value, channelId);
      if row.None? {
        return Err(TypeError);
      }
      return Ok(row.value.ticketId);
    }

    method GetTicketSetupMessageId() returns (r: Result<int>)
      requires Valid()
      modifies this
      ensures Valid() && isInitialized && database == Init(old(database))
      ensures r.Ok? <==> |ConfigRows(old(database))| > 0
      ensures r.Ok? ==> r.value == ConfigRows(old(database))[0].setupMessageId
      ensures r.Err? ==> r.error == TypeError
    {
      r := GetConfig();
    }

    method IncrementTicketCount()
      requires Valid()
      modifies this
      ensures Valid() && isInitialized
      ensures database == Init(old(database)).(config := Some(ShiftCount(ConfigRows(old(database)), 1)))
    {
      Initialize();
      database := database.(config := Some(ShiftCount(database.config.value, 1)));
    }

    method RemoveTicket(channelId: int)
      requires Valid()
      modifies this
      ensures Valid() && isInitialized
      ensures database == Init(old(database)).(tickets := Some(WithoutChannel(TicketRows(old(database)), channelId)))
    {
      Initialize();
      database := database.(tickets := Some(WithoutChannel(database.tickets.value, channelId)));
    }

    method SaveNewTicketMessage(messageId: int)
      requires Valid()
      modifies this
      ensures Valid() && isInitialized
      ensures database == Init(old(database)).(config := Some(WithSetupMessage(ConfigRows(old(database)), messageId)))
    {
      Initialize();
      database := database.(config := Some(WithSetupMessage(database.config.value, messageId)));
    }
  }
}
