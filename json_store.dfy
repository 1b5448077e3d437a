/** `JsonStore`: the ticket store kept in one JSON file, `config.json`, under a
    storage path. The file holds a single dict: the counter under
    "ticket_count", the setup message under "ticket_setup_message_id", and one
    entry `{"id": ..., "reaction_message_id": ...}` per ticket channel under
    `str(channel_id)`. Every operation reads the whole dict, changes it in
    memory and writes it back; a missing file reads as `{}`. */
module JsonStoreModel {
  import opened Common
  import opened PyDict

  const TicketCountKey := "ticket_count"
  const SetupMessageKey := "ticket_setup_message_id"
  const IdField := "id"
  const ReactionMessageField := "reaction_message_id"
  const PathError := "Expected a valid storage path string (Start and end with /)"

  /** A key that is neither of the two configuration keys. */
  predicate IsTicketKey(k: string) {
    k != TicketCountKey && k != SetupMessageKey
  }

  /** The constructor's check: a storage path must start or end with "/". */
  function CheckStoragePath(path: string): (o: Outcome)
    ensures o.Raised? <==> !StartsWith(path, "/") && !EndsWith(path, "/")
    ensures o.Raised? ==> o.error == RuntimeError(PathError)
  {
    if !StartsWith(path, "/") && !EndsWith(path, "/") then Raised(RuntimeError(PathError)) else Done
  }

  /** `__read`: the dict in the file, or `{}` when there is no file. */
  function ReadConfig(file: Option<Dict>): (d: Dict)
    ensures file.None? ==> d == []
    ensures file.Some? ==> d == file.value
  {
    file.GetOr([])
  }

  // ---------------------------------------------------------------------
  // The operations, as functions of the dict read from the file

  /** `check_is_ticket`: any key, including the two configuration keys. */
  predicate IsTicket(d: Dict, channelId: Id) {
    IdText(channelId) in Keys(d)
  }

  /** An entry that carries `m` as its reaction message. */
  predicate CarriesReactionMessage(v: Value, m: Id) {
    v.Object? && ReactionMessageField in v.fields && v.fields[ReactionMessageField] == IdScalar(m)
  }

  /** Some ticket entry carries `m` as its reaction message. */
  predicate SomeTicketCarries(d: Dict, m: Id) {
    exists e | e in d :: IsTicketKey(e.0) && CarriesReactionMessage(e.1, m)
  }

  /** The loop of `check_message_is_reaction_message`: entries in order, each
      asked `v.get("reaction_message_id")`; the first match answers True and a
      value without `.get` raises. */
  function ScanReactionIds(entries: Dict, m: Id): (r: Result<bool>)
    ensures r == Ok(true) ==> exists e | e in entries :: CarriesReactionMessage(e.1, m)
    decreases |entries|
  {
    if entries == [] then Ok(false)
    else
      var field :- GetField(entries[0].1, ReactionMessageField);
      if field == IdScalar(m) then Ok(true) else ScanReactionIds(entries[1..], m)
  }

  /** `check_message_is_reaction_message`. */
  function IsReactionMessage(d: Dict, m: Id): (r: Result<bool>)
    ensures SetupMessageKey !in Keys(d) ==> r == Err(KeyError(SetupMessageKey))
    ensures SetupMessageKey in Keys(d) && Matches(m, Get(d, SetupMessageKey).value) ==> r == Ok(true)
    ensures (SetupMessageKey in Keys(d) && !Matches(m, Get(d, SetupMessageKey).value)
             && TicketCountKey !in Keys(d)) ==> r == Err(KeyError(TicketCountKey))
  {
    var setup :- Index(d, SetupMessageKey);
    if Matches(m, setup) then Ok(true)
    else
      var rest :- Pop(d, TicketCountKey);
      var tickets :- Pop(rest, SetupMessageKey);
      ScanReactionIds(tickets, m)
  }

  /** The value `create_ticket` stores for a channel. */
  function TicketEntry(ticketId: int, reactionMessageId: Id): Value {
    Object(map[IdField := Int(ticketId), ReactionMessageField := IdScalar(reactionMessageId)])
  }

  /** `create_ticket`: maps `str(channel_id)` to a fresh entry, overwriting
      whatever was there, and touches no other key. */
  function WithTicket(d: Dict, channelId: Id, ticketId: int, reactionMessageId: Id): (r: Dict)
    ensures IsTicket(r, channelId)
    ensures TicketId(r, channelId) == Ok(Int(ticketId))
    ensures Get(r, IdText(channelId)) == Some(TicketEntry(ticketId, reactionMessageId))
    ensures forall k | k != IdText(channelId) :: Get(r, k) == Get(d, k)
    ensures Keys(r) == Keys(d) + {IdText(channelId)}
    ensures IsTicket(d, channelId) ==> |r| == |d|
  {
    var k := IdText(channelId);
    if k in Keys(d) then SetExistingKeyInPlace(d, k, TicketEntry(ticketId, reactionMessageId)); Set(d, k, TicketEntry(ticketId, reactionMessageId))
    else Set(d, k, TicketEntry(ticketId, reactionMessageId))
  }

  /** `get_ticket_count`: the stored value, 0 when there is none. */
  function TicketCount(d: Dict): (v: Value)
    ensures TicketCountKey !in Keys(d) ==> v == Atom(Int(0))
    ensures TicketCountKey in Keys(d) ==> Get(d, TicketCountKey) == Some(v)
  {
    Get(d, TicketCountKey).GetOr(Atom(Int(0)))
  }

  /** The counter as an int, when it can be incremented: an absent counter counts as 0. */
  function CountOf(d: Dict): Option<int> {
    match Get(d, TicketCountKey)
    case None => Some(0)
    case Some(Atom(Int(n))) => Some(n)
    case Some(_) => None
  }

  /** `increment_ticket_count`: an absent counter becomes 1 (appended), an int
      counter grows by exactly one in place; any other stored value raises. */
  function WithCountIncremented(d: Dict): (r: Result<Dict>)
    ensures r.Ok? <==> CountOf(d).Some?
    ensures r.Ok? ==> CountOf(r.value) == Some(CountOf(d).value + 1)
                      && TicketCount(r.value) == Atom(Int(CountOf(d).value + 1))
    ensures r.Ok? ==> forall k | k != TicketCountKey :: Get(r.value, k) == Get(d, k)
    ensures r.Err? ==> r.error == TypeError
  {
    match Get(d, TicketCountKey)
    case None => Ok(Set(d, TicketCountKey, Atom(Int(1))))
    case Some(v) =>
      var w :- AddInt(v, 1);
      Ok(Set(d, TicketCountKey, w))
  }

  /** `decrement_ticket_count`: nothing when there is no counter, otherwise
      exactly one less, with no floor at zero. */
  function WithCountDecremented(d: Dict): (r: Result<Dict>)
    ensures TicketCountKey !in Keys(d) ==> r == Ok(d)
    ensures TicketCountKey in Keys(d) ==> (r.Ok? <==> CountOf(d).Some?)
    ensures TicketCountKey in Keys(d) && r.Ok? ==> CountOf(r.value) == Some(CountOf(d).value - 1)
    ensures r.Ok? ==> forall k | k != TicketCountKey :: Get(r.value, k) == Get(d, k)
    ensures r.Err? ==> r.error == TypeError
  {
    match Get(d, TicketCountKey)
    case None => Ok(d)
    case Some(v) =>
      var w :- AddInt(v, -1);
      Ok(Set(d, TicketCountKey, w))
  }

  /** `get_next_ticket_id`: increment, then read the counter back. */
  function NextTicketId(d: Dict): (r: Result<(Value, Dict)>)
    ensures r.Ok? <==> CountOf(d).Some?
    ensures r.Ok? ==> r.value.0 == Atom(Int(CountOf(d).value + 1))
                      && CountOf(r.value.1) == Some(CountOf(d).value + 1)
    ensures r.Ok? ==> forall k | k != TicketCountKey :: Get(r.value.1, k) == Get(d, k)
  {
    var d' :- WithCountIncremented(d);
    Ok((TicketCount(d'), d'))
  }

  /** `get_ticket_id`: None for an unknown channel, otherwise the entry's "id"
      (None when it has none); a non-object entry has no `.get`. */
  function TicketId(d: Dict, channelId: Id): (r: Result<Scalar>)
    ensures !IsTicket(d, channelId) ==> r == Ok(Null)
    ensures IsTicket(d, channelId) ==> r == GetField(Get(d, IdText(channelId)).value, IdField)
  {
    if IdText(channelId) !in Keys(d) then Ok(Null)
    else GetField(Get(d, IdText(channelId)).value, IdField)
  }

  /** `get_ticket_setup_message_id`: `data.get(...)`, None when absent. */
  function SetupMessageId(d: Dict): (v: Value)
    ensures SetupMessageKey !in Keys(d) ==> v == Atom(Null)
    ensures SetupMessageKey in Keys(d) ==> Get(d, SetupMessageKey) == Some(v)
  {
    Get(d, SetupMessageKey).GetOr(Atom(Null))
  }

  /** `remove_ticket`: deletes exactly `str(channel_id)`; KeyError when absent. */
  function WithoutTicket(d: Dict, channelId: Id): (r: Result<Dict>)
    ensures r.Err? <==> !IsTicket(d, channelId)
    ensures r.Err? ==> r.error == KeyError(IdText(channelId))
    ensures r.Ok? && DistinctKeys(d) ==>
              !IsTicket(r.value, channelId) && Keys(r.value) == Keys(d) - {IdText(channelId)}
    ensures r.Ok? ==> forall k | k != IdText(channelId) :: Get(r.value, k) == Get(d, k)
  {
    Pop(d, IdText(channelId))
  }

  /** `save_new_ticket_message`: replaces only the setup message id, which is
      recognised as a reaction message from then on. */
  function WithSetupMessage(d: Dict, messageId: int): (r: Dict)
    ensures SetupMessageId(r) == Atom(Int(messageId))
    ensures IsReactionMessage(r, IntId(messageId)) == Ok(true)
    ensures forall k | k != SetupMessageKey :: Get(r, k) == Get(d, k)
  {
    Set(d, SetupMessageKey, Atom(Int(messageId)))
  }

  // ---------------------------------------------------------------------
  // Properties that relate several operations

  /** The shape this store itself writes: distinct keys, both configuration
      keys present, every ticket entry an object. */
  predicate WellFormed(d: Dict) {
    && DistinctKeys(d)
    && SetupMessageKey in Keys(d)
    && TicketCountKey in Keys(d)
    && forall e | e in d && IsTicketKey(e.0) :: e.1.Object?
  }

  /** Over object entries the scan answers whether some entry carries `m`. */
  lemma {:induction false} ScanOverObjects(entries: Dict, m: Id)
    requires forall e | e in entries :: e.1.Object?
    ensures ScanReactionIds(entries, m) == Ok(exists e | e in entries :: CarriesReactionMessage(e.1, m))
    decreases |entries|
  {
    if entries != [] {
      assert entries[0] in entries;
      forall e | e in entries[1..] ensures e in entries { }
      ScanOverObjects(entries[1..], m);
      if !CarriesReactionMessage(entries[0].1, m) {
        forall e | e in entries && CarriesReactionMessage(e.1, m) ensures e in entries[1..] {
          var i :| 0 <= i < |entries| && entries[i] == e;
          assert i != 0;
          assert entries[1..][i - 1] == e;
        }
      }
    }
  }

  /** On a well-formed dict, a message is a reaction message exactly when it
      is the setup message or some ticket entry's reaction message. */
  lemma ReactionMessageIff(d: Dict, m: Id)
    requires WellFormed(d)
    ensures IsReactionMessage(d, m)
            == Ok(Matches(m, SetupMessageId(d)) || SomeTicketCarries(d, m))
  {
    if !Matches(m, SetupMessageId(d)) {
      var rest := Remove(d, TicketCountKey);
      var tickets := Remove(rest, SetupMessageKey);
      assert IsReactionMessage(d, m) == ScanReactionIds(tickets, m);
      forall e ensures e in tickets <==> e in d && IsTicketKey(e.0) { }
      ScanOverObjects(tickets, m);
    }
  }

  /** After a new setup message is saved, the previous one is recognised only
      if some ticket entry carries it. */
  lemma SaveForgetsOldSetupMessage(d: Dict, old_: int, new_: int)
    requires WellFormed(d) && old_ != new_
    ensures IsReactionMessage(WithSetupMessage(d, new_), IntId(old_)) == Ok(SomeTicketCarries(d, IntId(old_)))
  {
    var d' := WithSetupMessage(d, new_);
    forall e | e in d' && IsTicketKey(e.0) ensures e.1.Object? && e in d { }
    ReactionMessageIff(d', IntId(old_));
    if SomeTicketCarries(d', IntId(old_)) {
      var e :| e in d' && IsTicketKey(e.0) && CarriesReactionMessage(e.1, IntId(old_));
      assert e in d;
    }
    if SomeTicketCarries(d, IntId(old_)) {
      var e :| e in d && IsTicketKey(e.0) && CarriesReactionMessage(e.1, IntId(old_));
      KeyAtPositionOf(d, e);
      assert Get(d', e.0) == Get(d, e.0) == Some(e.1);
      var i := PositionOfKey(d', e.0);
      GetAtPosition(d', i);
      assert d'[i] == e;
    }
  }

  /** An entry of a dict with distinct keys is what `Get` finds for its key. */
  lemma KeyAtPositionOf(d: Dict, e: Entry)
    requires DistinctKeys(d) && e in d
    ensures Get(d, e.0) == Some(e.1)
  {
    var i :| 0 <= i < |d| && d[i] == e;
    GetAtPosition(d, i);
  }

  /** `str()` of an integer channel id is never one of the configuration keys,
      so an integer channel never shadows the counter or the setup message. */
  lemma IntChannelIsNotConfigKey(channelId: int)
    ensures IsTicketKey(IdText(IntId(channelId)))
  {
    IntToDecimalIsNotWord(channelId, TicketCountKey, 0);
    IntToDecimalIsNotWord(channelId, SetupMessageKey, 0);
  }

  /** `check_is_ticket` also answers True for the two configuration keys,
      given as string channel ids. */
  lemma ConfigKeysCountAsTickets(d: Dict)
    requires WellFormed(d)
    ensures IsTicket(d, StrId(TicketCountKey)) && IsTicket(d, StrId(SetupMessageKey))
  {
  }

  /** Creating a ticket for an integer channel keeps the dict well-formed. */
  lemma WithTicketKeepsWellFormed(d: Dict, channelId: int, ticketId: int, reactionMessageId: Id)
    requires WellFormed(d)
    ensures WellFormed(WithTicket(d, IntId(channelId), ticketId, reactionMessageId))
  {
    IntChannelIsNotConfigKey(channelId);
  }

  /** `issued` successive `get_next_ticket_id` calls, as the list of values returned. */
  function DrawIds(d: Dict, issued: nat): Result<seq<Value>>
    decreases issued
  {
    if issued == 0 then Ok([])
    else
      var p :- NextTicketId(d);
      var rest :- DrawIds(p.1, issued - 1);
      Ok([p.0] + rest)
  }

  /** The ids start, start+1, ..., as stored values: distinct and strictly increasing. */
  function IdsFrom(start: int, count: nat): (r: seq<Value>)
    ensures |r| == count
    ensures forall i | 0 <= i < count :: r[i] == Atom(Int(start + i))
    decreases count
  {
    if count == 0 then [] else [Atom(Int(start))] + IdsFrom(start + 1, count - 1)
  }

  /** From a counter at n, successive draws return n+1, n+2, ... */
  lemma {:induction false} DrawIdsCountUp(d: Dict, issued: nat)
    requires CountOf(d).Some?
    ensures DrawIds(d, issued) == Ok(IdsFrom(CountOf(d).value + 1, issued))
    decreases issued
  {
    if issued > 0 {
      var p := NextTicketId(d).value;
      DrawIdsCountUp(p.1, issued - 1);
    }
  }

  /** Starting from a missing file, the ids handed out are 1, 2, 3, ... */
  lemma DrawIdsFromEmpty(issued: nat)
    ensures DrawIds(ReadConfig(None), issued).Ok? && |DrawIds(ReadConfig(None), issued).value| == issued
    ensures forall i | 0 <= i < issued :: DrawIds(ReadConfig(None), issued).value[i] == Atom(Int(i + 1))
  {
    DrawIdsCountUp([], issued);
  }

  // ---------------------------------------------------------------------
  // The store object

  class JsonStore {
    const storagePath: string
    /** The contents of `config.json`; None while the file does not exist. */
    var file: Option<Dict>

    ghost predicate Valid()
      reads this
    {
      file.Some? ==> DistinctKeys(file.value)
    }

    /** `get_config`, i.e. `__read("config")`. */
    function Config(): Dict
      reads this
    {
      ReadConfig(file)
    }

    constructor (storagePath: string, existing: Option<Dict>)
      requires CheckStoragePath(storagePath) == Done
      requires existing.Some? ==> DistinctKeys(existing.value)
      ensures Valid() && this.storagePath == storagePath && file == existing
    {
      this.storagePath := storagePath;
      file := existing;
    }

    method CheckIsTicket(channelId: Id) returns (b: bool)
      ensures b == IsTicket(Config(), channelId)
    {
      var data := Config();
      b := IdText(channelId) in Keys(data);
    }

    method CheckMessageIsReactionMessage(messageId: Id) returns (r: Result<bool>)
      ensures r == IsReactionMessage(Config(), messageId)
    {
      var data := Config();
      var setup := Index(data, SetupMessageKey);
      if setup.Err? {
        return Err(setup.error);
      }
      if Matches(messageId, setup.value) {
        return Ok(true);
      }
      var popped := Pop(data, TicketCountKey);
      if popped.Err? {
        return Err(popped.error);
      }
      data := Remove(popped.value, SetupMessageKey);
      var i := 0;
      while i < |data|
        invariant 0 <= i <= |data|
        invariant ScanReactionIds(data[i..], messageId) == ScanReactionIds(data, messageId)
      {
        assert data[i..][1..] == data[i + 1..];
        var field := GetField(data[i].1, ReactionMessageField);
        if field.Err? {
          return Err(field.error);
        }
        if field.value == IdScalar(messageId) {
          return Ok(true);
        }
        i := i + 1;
      }
      return Ok(false);
    }

    method CreateTicket(channelId: Id, ticketId: int, reactionMessageId: Id)
      requires Valid()
      modifies this
      ensures Valid()
      ensures file == Some(WithTicket(old(Config()), channelId, ticketId, reactionMessageId))
    {
      var data := Config();
      data := Set(data, IdText(channelId), Object(map[IdField := Int(ticketId), ReactionMessageField := IdScalar(reactionMessageId)]));
      file := Some(data);
    }

    method DecrementTicketCount() returns (o: Outcome)
      requires Valid()
      modifies this
      ensures Valid()
      ensures TicketCountKey !in Keys(old(Config())) ==> o == Done && file == old(file)
      ensures TicketCountKey in Keys(old(Config())) ==>
                match WithCountDecremented(old(Config()))
                case Ok(d) => o == Done && file == Some(d)
                case Err(e) => o == Raised(e) && file == old(file)
    {
      var data := Config();
      if TicketCountKey !in Keys(data) {
        return Done;
      }
      var decremented := AddInt(Get(data, TicketCountKey).value, -1);
      if decremented.Err? {
        return Raised(decremented.error);
      }
      data := Set(data, TicketCountKey, decremented.value);
      file := Some(data);
      return Done;
    }

    method GetTicketCount() returns (v: Value)
      ensures v == TicketCount(Config())
    {
      var data := Config();
      v := if TicketCountKey in Keys(data) then Get(data, TicketCountKey).value else Atom(Int(0));
    }

    method IncrementTicketCount() returns (o: Outcome)
      requires Valid()
      modifies this
      ensures Valid()
      ensures match WithCountIncremented(old(Config()))
              case Ok(d) => o == Done && file == Some(d)
              case Err(e) => o == Raised(e) && file == old(file)
    {
      var data := Config();
      if TicketCountKey !in Keys(data) {
        data := Set(data, TicketCountKey, Atom(Int(0)));
        SetTwice(Config(), TicketCountKey, Atom(Int(0)), Atom(Int(1)));
      }
      var incremented := AddInt(Get(data, TicketCountKey).value, 1);
      if incremented.Err? {
        return Raised(incremented.error);
      }
      data := Set(data, TicketCountKey, incremented.value);
      file := Some(data);
      return Done;
    }

    method GetNextTicketId() returns (r: Result<Value>)
      requires Valid()
      modifies this
      ensures Valid()
      ensures match NextTicketId(old(Config()))
              case Ok(p) => r == Ok(p.0) && file == Some(p.1)
              case Err(e) => r == Err(e) && file == old(file)
    {
      var o := IncrementTicketCount();
      if o.Raised? {
        return Err(o.error);
      }
      var v := GetTicketCount();
      return Ok(v);
    }

    method GetTicketId(channelId: Id) returns (r: Result<Scalar>)
      ensures r == TicketId(Config(), channelId)
    {
      var data := Config();
      if IdText(channelId) !in Keys(data) {
        return Ok(Null);
      }
      r := GetField(Get(data, IdText(channelId)).value, IdField);
    }

    method GetTicketSetupMessageId() returns (v: Value)
      ensures v == SetupMessageId(Config())
    {
      var data := Config();
      v := Get(data, SetupMessageKey).GetOr(Atom(Null));
    }

    method RemoveTicket(channelId: Id) returns (o: Outcome)
      requires Valid()
      modifies this
      ensures Valid()
      ensures match WithoutTicket(old(Config()), channelId)
              case Ok(d) => o == Done && file == Some(d)
              case Err(e) => o == Raised(e) && file == old(file)
    {
      var data := Config();
      var popped := Pop(data, IdText(channelId));
      if popped.Err? {
        return Raised(popped.error);
      }
      file := Some(popped.value);
      return Done;
    }

    method SaveNewTicketMessage(messageId: int)
      requires Valid()
      modifies this
      ensures Valid()
      ensures file == Some(WithSetupMessage(old(Config()), messageId))
    {
      var data := Config();
      data := Set(data, SetupMessageKey, Atom(Int(messageId)));
      file := Some(data);
    }
  }
}
