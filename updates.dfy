/**
 * Update intake of the polling mixin: the queue of raw updates, the cursor
 * (`offset`, `last_id`, `last_date`) with its seven-day reset window, and the
 * classification of every message as a query. Dates are integer unix seconds and
 * `now` stands for `datetime.today()`, read once per drain.
 */
module Updates {
  import opened Wrappers

  /** Seven days in seconds: after that long without updates, a smaller update id is accepted. */
  const ResetPeriod: int := 604800
  /** The class constants sent with every `getUpdates` request. */
  const Limit: nat := 100
  const Timeout: nat := 100
  const AllowedUpdates: seq<string> := ["message", "edited_message"]

  /**
   * A Telegram message object reduced to the keys the intake reads; `None` is a
   * missing key (for `chat`, a missing chat or a chat without `id`). `otherKeys`
   * records whether the dict holds any key besides these.
   */
  datatype MessageObj = MessageObj(date: Option<int>, editDate: Option<int>, chat: Option<ChatId>, text: Option<string>, otherKeys: bool)

  /** A raw update: `update_id`, `message` and `edited_message`, each possibly missing. */
  datatype Update = Update(updateId: Option<int>, message: Option<MessageObj>, editedMessage: Option<MessageObj>)

  /** The `(chat_id, text)` pair put on the `queries` queue. */
  datatype QueryItem = QueryItem(chat: ChatId, text: string)

  /**
   * The local `date` of `process_updates`: nothing (`last_date` was `None`), an
   * integer timestamp taken from a message, or the `datetime` held in `last_date`.
   */
  datatype DateVar = NoDate | Stamp(t: int) | DateTime(at: int)

  datatype Cursor = Cursor(offset: int, lastId: int, lastDate: Option<int>)

  /** The part of the handler a drain changes: the cursor and the `queries` queue. */
  datatype Intake = Intake(cursor: Cursor, queries: seq<QueryItem>)

  datatype StepResult = StepResult(state: Intake, date: DateVar, error: Option<PyError>)

  /** The end of a drain: the new state, the updates still queued, and the exception that stopped it, if any. */
  datatype Outcome = Outcome(state: Intake, pending: seq<Update>, error: Option<PyError>)

  datatype UpdatesParams = UpdatesParams(offset: int, limit: nat, timeout: nat, allowedUpdates: seq<string>)

  /** Python truthiness of the message dict: true when it has any key. */
  predicate Truthy(m: MessageObj)
  {
    m.date.Some? || m.editDate.Some? || m.chat.Some? || m.text.Some? || m.otherKeys
  }

  /** `update.get("message") or update.get("edited_message")`; calling `.get` on the resulting `None` raises `AttributeError`. */
  function SelectMessage(u: Update): (r: Result<MessageObj>)
    ensures r.Ok? <==> (u.message.Some? && Truthy(u.message.value)) || u.editedMessage.Some?
    ensures u.message.Some? && Truthy(u.message.value) ==> r == Ok(u.message.value)
    ensures !(u.message.Some? && Truthy(u.message.value)) && u.editedMessage.Some? ==> r == Ok(u.editedMessage.value)
    ensures r.Ok? ==> Some(r.value) == u.message || Some(r.value) == u.editedMessage
    ensures r.Err? ==> r.error == AttributeError
  {
    if u.message.Some? && Truthy(u.message.value) then Ok(u.message.value)
    else if u.editedMessage.Some? then Ok(u.editedMessage.value)
    else Err(AttributeError)
  }

  /** `msg_obj.get("date") or msg_obj.get("edit_date")`: a missing key or a zero timestamp is falsy. */
  function OwnDate(m: MessageObj): (r: Option<int>)
    ensures r.Some? ==> r.value != 0 && (r == m.date || r == m.editDate)
    ensures m.date.Some? && m.date.value != 0 ==> r == m.date
    ensures r.None? <==> (m.date.None? || m.date == Some(0)) && (m.editDate.None? || m.editDate == Some(0))
  {
    if m.date.Some? && m.date.value != 0 then m.date
    else if m.editDate.Some? && m.editDate.value != 0 then m.editDate
    else None
  }

  /** The new value of the local `date`: the message's own date, or else the previous value. */
  function NextDate(m: MessageObj, date: DateVar): (r: DateVar)
    ensures r.Stamp? <==> OwnDate(m).Some? || date.Stamp?
    ensures OwnDate(m).Some? ==> r.t == OwnDate(m).value
    ensures OwnDate(m).None? ==> r == date
  {
    match OwnDate(m)
    case Some(t) => Stamp(t)
    case None => date
  }

  /** `datetime.fromtimestamp(date)`: only an integer timestamp is accepted. */
  function FromTimestamp(date: DateVar): (r: Result<int>)
    ensures r.Ok? <==> date.Stamp?
    ensures r.Ok? ==> r.value == date.t
    ensures r.Err? ==> r.error == TypeError
  {
    match date
    case Stamp(t) => Ok(t)
    case _ => Err(TypeError)
  }

  /** The value the local `date` starts from: `self.last_date`, a `datetime` or `None`, never a timestamp. */
  function StartDate(lastDate: Option<int>): (r: DateVar)
    ensures !r.Stamp?
    ensures r.NoDate? <==> lastDate.None?
    ensures lastDate.Some? ==> r.at == lastDate.value
  {
    match lastDate
    case None => NoDate
    case Some(t) => DateTime(t)
  }

  predicate InWindow(lastDate: Option<int>, now: int)
  {
    lastDate.Some? && lastDate.value > now - ResetPeriod
  }

  /** `new_last_id`: the larger id while the last date lies in the window before `now`, otherwise the incoming id. */
  function MergedLastId(lastDate: Option<int>, lastId: int, luid: int, now: int): (r: int)
    ensures InWindow(lastDate, now) ==> r >= lastId && r >= luid && (r == lastId || r == luid)
    ensures !InWindow(lastDate, now) ==> r == luid
  {
    if InWindow(lastDate, now) && lastId > luid then lastId else luid
  }

  /** What `process_message` puts on `queries`: the pair when both `chat.id` and `text` are present, nothing otherwise. */
  function QueryOf(m: MessageObj): (r: seq<QueryItem>)
    ensures |r| <= 1
    ensures |r| == 1 <==> m.chat.Some? && m.text.Some?
    ensures |r| == 1 ==> r[0].chat == m.chat.value && r[0].text == m.text.value
  {
    if m.chat.Some? && m.text.Some? then [QueryItem(m.chat.value, m.text.value)] else []
  }

  /** `_get_updates_params`: the request for updates from the current offset on. */
  function UpdatesRequest(offset: int): (r: UpdatesParams)
    ensures r.offset == offset && r.limit == 100 && r.timeout == 100
    ensures r.allowedUpdates == ["message", "edited_message"]
  {
    UpdatesParams(offset, Limit, Timeout, AllowedUpdates)
  }

  /**
   * One iteration of the `process_updates` loop for a dequeued update. It gets through
   * exactly when the update is admissible and a timestamp is at hand; then the cursor is
   * in sync and the message's query is appended. An exception leaves `offset`, `last_id`
   * and `queries` as they were.
   */
  function Step(s: Intake, date: DateVar, u: Update, now: int): (r: StepResult)
    ensures SelectMessage(u).Ok? ==> r.date == NextDate(SelectMessage(u).value, date)
    ensures r.error.None? <==> Admissible(u) && (date.Stamp? || HasOwnDate(u))
    ensures r.error.None? <==> Admissible(u) && r.date.Stamp?
    ensures SelectMessage(u).Err? ==> r.error == Some(AttributeError)
    ensures SelectMessage(u).Ok? && !r.date.Stamp? ==> r.error == Some(TypeError)
    ensures SelectMessage(u).Ok? && r.date.Stamp? && u.updateId.None? ==> r.error == Some(KeyError)
    ensures r.error.None? ==>
      r.state.cursor == Cursor(r.state.cursor.lastId + 1, MergedLastId(Some(r.date.t), s.cursor.lastId, u.updateId.value, now), Some(r.date.t))
    ensures r.error.None? ==> r.state.queries == s.queries + QueryOf(SelectMessage(u).value)
    ensures r.error.Some? ==>
      r.state.queries == s.queries && r.state.cursor.offset == s.cursor.offset && r.state.cursor.lastId == s.cursor.lastId
  {
    match SelectMessage(u)
    case Err(e) => StepResult(s, date, Some(e))
    case Ok(m) =>
      var d := NextDate(m, date);
      match FromTimestamp(d)
      case Err(e) => StepResult(s, d, Some(e))
      case Ok(t) =>
        match u.updateId
        case None => StepResult(Intake(s.cursor.(lastDate := Some(t)), s.queries), d, Some(KeyError))
        case Some(id) =>
          var lid := MergedLastId(Some(t), s.cursor.lastId, id, now);
          StepResult(Intake(Cursor(lid + 1, lid, Some(t)), s.queries + QueryOf(m)), d, None)
  }

  /**
   * `process_updates`: the queue is drained from the front until it is empty or an
   * exception escapes; the failing update has been dequeued, the ones behind it stay queued.
   */
  function Drain(s: Intake, date: DateVar, us: seq<Update>, now: int): (r: Outcome)
    ensures r.error.None? ==> r.pending == []
    ensures r.error.Some? ==> |r.pending| < |us|
    decreases |us|
  {
    if us == [] then Outcome(s, [], None)
    else
      var r := Step(s, date, us[0], now);
      if r.error.Some? then Outcome(r.state, us[1..], r.error)
      else Drain(r.state, r.date, us[1..], now)
  }

  /** The queries a list of updates produces, in queue order. */
  function QueriesOf(us: seq<Update>): seq<QueryItem>
    decreases |us|
  {
    if us == [] then []
    else (match SelectMessage(us[0]) case Ok(m) => QueryOf(m) case Err(_) => []) + QueriesOf(us[1..])
  }

  /** The largest of `base` and the update ids in `us`. */
  function MaxId(base: int, us: seq<Update>): int
    decreases |us|
  {
    if us == [] then base
    else MaxId(if us[0].updateId.Some? && us[0].updateId.value > base then us[0].updateId.value else base, us[1..])
  }

  predicate InSync(c: Cursor)
  {
    c.offset == c.lastId + 1
  }

  /** An update the loop gets through: it has a message and an `update_id`. */
  predicate Admissible(u: Update)
  {
    SelectMessage(u).Ok? && u.updateId.Some?
  }

  predicate HasOwnDate(u: Update)
  {
    SelectMessage(u).Ok? && OwnDate(SelectMessage(u).value).Some?
  }

  /** An admissible update dated inside the window before `now`. */
  predicate Recent(u: Update, now: int)
  {
    Admissible(u) && HasOwnDate(u) && OwnDate(SelectMessage(u).value).value > now - ResetPeriod
  }

  /** Every processed update leaves `offset == last_id + 1`, so a synchronised cursor stays synchronised. */
  lemma {:induction false} DrainKeepsSync(s: Intake, date: DateVar, us: seq<Update>, now: int)
    requires InSync(s.cursor)
    ensures InSync(Drain(s, date, us, now).state.cursor)
    decreases |us|
  {
    if us != [] {
      var r := Step(s, date, us[0], now);
      if r.error.None? {
        DrainKeepsSync(r.state, r.date, us[1..], now);
      }
    }
  }

  /** The updates left queued after an exception are exactly the ones behind the failing update. */
  lemma {:induction false} DrainConsumesInOrder(s: Intake, date: DateVar, us: seq<Update>, now: int)
    ensures Drain(s, date, us, now).error.Some? ==>
      Drain(s, date, us, now).pending == us[|us| - |Drain(s, date, us, now).pending|..]
    decreases |us|
  {
    if us != [] {
      var r := Step(s, date, us[0], now);
      if r.error.None? {
        DrainConsumesInOrder(r.state, r.date, us[1..], now);
        var p := Drain(r.state, r.date, us[1..], now).pending;
        if Drain(r.state, r.date, us[1..], now).error.Some? {
          assert us[1..][|us| - 1 - |p|..] == us[|us| - |p|..];
        }
      }
    }
  }

  /** Queries only ever grow at the end; a drain without exception appends exactly the queries of the updates, in order. */
  lemma {:induction false} DrainQueries(s: Intake, date: DateVar, us: seq<Update>, now: int)
    ensures s.queries <= Drain(s, date, us, now).state.queries
    ensures Drain(s, date, us, now).error.None? ==> Drain(s, date, us, now).state.queries == s.queries + QueriesOf(us)
    decreases |us|
  {
    if us != [] {
      var r := Step(s, date, us[0], now);
      if r.error.None? {
        var o := Drain(r.state, r.date, us[1..], now);
        assert Drain(s, date, us, now) == o;
        DrainQueries(r.state, r.date, us[1..], now);
        var q := QueryOf(SelectMessage(us[0]).value);
        assert r.state.queries == s.queries + q;
        PrefixOfPrefix(s.queries, r.state.queries, o.state.queries);
        if o.error.None? {
          assert QueriesOf(us) == q + QueriesOf(us[1..]);
          assert o.state.queries == s.queries + q + QueriesOf(us[1..]);
        }
      } else {
        assert Drain(s, date, us, now).state == r.state;
      }
    }
  }

  lemma PrefixOfPrefix(a: seq<QueryItem>, b: seq<QueryItem>, c: seq<QueryItem>)
    requires a <= b && b <= c
    ensures a <= c
  {
    assert c[..|a|] == c[..|b|][..|a|];
  }

  /**
   * The drain finishes without an exception exactly when every update is admissible and
   * the first one brings its own date or the local `date` already holds a timestamp.
   */
  lemma {:induction false} DrainNoErrorIff(s: Intake, date: DateVar, us: seq<Update>, now: int)
    ensures Drain(s, date, us, now).error.None? <==>
      (forall k :: 0 <= k < |us| ==> Admissible(us[k])) && (us == [] || date.Stamp? || HasOwnDate(us[0]))
    decreases |us|
  {
    if us != [] {
      var r := Step(s, date, us[0], now);
      if r.error.None? {
        assert r.date.Stamp?;
        DrainNoErrorIff(r.state, r.date, us[1..], now);
        forall k | 0 < k < |us|
          ensures us[k] == us[1..][k - 1]
        {
        }
      }
    }
  }

  /** The only exceptions that escape `process_updates`. */
  lemma {:induction false} DrainErrors(s: Intake, date: DateVar, us: seq<Update>, now: int)
    ensures Drain(s, date, us, now).error in {None, Some(AttributeError), Some(TypeError), Some(KeyError)}
    decreases |us|
  {
    if us != [] {
      var r := Step(s, date, us[0], now);
      if r.error.None? {
        DrainErrors(r.state, r.date, us[1..], now);
      }
    }
  }

  lemma {:induction false} MaxIdBounds(base: int, us: seq<Update>)
    ensures MaxId(base, us) >= base
    ensures forall k :: 0 <= k < |us| && us[k].updateId.Some? ==> MaxId(base, us) >= us[k].updateId.value
    ensures MaxId(base, us) == base || exists k :: 0 <= k < |us| && us[k].updateId == Some(MaxId(base, us))
    decreases |us|
  {
    if us != [] {
      var b := if us[0].updateId.Some? && us[0].updateId.value > base then us[0].updateId.value else base;
      MaxIdBounds(b, us[1..]);
      forall k | 0 < k < |us|
        ensures us[k] == us[1..][k - 1]
      {
      }
      if MaxId(base, us) != b {
        var j :| 0 <= j < |us| - 1 && us[1..][j].updateId == Some(MaxId(base, us));
        assert us[j + 1].updateId == Some(MaxId(base, us));
      }
    }
  }

  /**
   * When every update is recent, `last_id` is merged with max at every step, whatever
   * the messages contain: it ends at the largest id seen, and offset one past it.
   */
  lemma {:induction false} RecentBatchMax(s: Intake, date: DateVar, us: seq<Update>, now: int)
    requires forall k :: 0 <= k < |us| ==> Recent(us[k], now)
    ensures Drain(s, date, us, now).error.None? && Drain(s, date, us, now).pending == []
    ensures us != [] ==> Drain(s, date, us, now).state.cursor.lastId == MaxId(s.cursor.lastId, us)
    ensures us != [] ==> InSync(Drain(s, date, us, now).state.cursor)
    decreases |us|
  {
    if us != [] {
      assert Recent(us[0], now);
      var r := Step(s, date, us[0], now);
      assert r.error.None?;
      forall k | 0 <= k < |us| - 1
        ensures Recent(us[1..][k], now)
      {
        assert us[1..][k] == us[k + 1];
      }
      RecentBatchMax(r.state, r.date, us[1..], now);
    }
  }

  predicate IncreasingIds(us: seq<Update>)
  {
    (forall k :: 0 <= k < |us| ==> us[k].updateId.Some?) &&
    (forall j, k :: 0 <= j < k < |us| ==> us[j].updateId.value < us[k].updateId.value)
  }

  /** For increasing ids above the current `last_id`, the largest id is the last one. */
  lemma {:induction false} MaxIdOfIncreasing(base: int, us: seq<Update>)
    requires us != [] && IncreasingIds(us) && base < us[0].updateId.value
    ensures MaxId(base, us) == us[|us| - 1].updateId.value
    decreases |us|
  {
    var b := us[0].updateId.value;
    if |us| > 1 {
      assert IncreasingIds(us[1..]) by {
        forall k | 0 <= k < |us| - 1
          ensures us[1..][k] == us[k + 1]
        {
        }
      }
      assert us[1].updateId.value > b;
      MaxIdOfIncreasing(b, us[1..]);
    }
  }

  /**
   * After a batch of recent updates the next `getUpdates` request starts past every id
   * processed, so none of them is fetched again.
   */
  lemma RecentBatchAcknowledged(s: Intake, date: DateVar, us: seq<Update>, now: int)
    requires us != [] && forall k :: 0 <= k < |us| ==> Recent(us[k], now)
    ensures forall k :: 0 <= k < |us| ==>
      us[k].updateId.Some? && UpdatesRequest(Drain(s, date, us, now).state.cursor.offset).offset > us[k].updateId.value
  {
    RecentBatchMax(s, date, us, now);
    MaxIdBounds(s.cursor.lastId, us);
  }

  /** A fresh cursor and increasing recent ids: the next offset is the last id plus one. */
  lemma IncreasingBatchOffset(date: DateVar, us: seq<Update>, now: int)
    requires us != [] && IncreasingIds(us) && us[0].updateId.value > 0
    requires forall k :: 0 <= k < |us| ==> Recent(us[k], now)
    ensures Drain(Intake(Cursor(1, 0, None), []), date, us, now).state.cursor.offset == us[|us| - 1].updateId.value + 1
  {
    RecentBatchMax(Intake(Cursor(1, 0, None), []), date, us, now);
    MaxIdOfIncreasing(0, us);
  }

  /** The attributes of `BotUpdateHandlerMixin` after `conf_updates`. */
  class UpdateHandler {
    var offset: int
    var lastId: int
    var lastDate: Option<int>
    var updates: seq<Update>
    var queries: seq<QueryItem>
    var cmdsPending: seq<QueryItem>

    /** `conf_updates`; `offset` keeps its class-level value 1. */
    constructor ()
      ensures offset == 1 && lastId == 0 && lastDate == None
      ensures updates == [] && queries == [] && cmdsPending == []
      ensures InSync(CursorState())
    {
      offset := 1;
      lastId := 0;
      lastDate := None;
      updates := [];
      queries := [];
      cmdsPending := [];
    }

    function CursorState(): Cursor
      reads this
    {
      Cursor(offset, lastId, lastDate)
    }

    function Snapshot(): Intake
      reads this
    {
      Intake(CursorState(), queries)
    }

    /** The successful branch of `get_updates`: every fetched update is queued in order. */
    method ReceiveUpdates(ok: bool, result: seq<Update>)
      modifies this`updates
      ensures updates == if ok then old(updates) + result else old(updates)
    {
      if ok {
        for i := 0 to |result|
          invariant updates == old(updates) + result[..i]
        {
          assert result[..i + 1] == result[..i] + [result[i]];
          updates := updates + [result[i]];
        }
        assert result[..|result|] == result;
      }
    }

    /** `new_last_date(date)`: `fromtimestamp` accepts only an integer timestamp. */
    method NewLastDate(date: DateVar) returns (err: Option<PyError>)
      modifies this`lastDate
      ensures date.Stamp? ==> err == None && lastDate == Some(date.t)
      ensures !date.Stamp? ==> err == Some(TypeError) && lastDate == old(lastDate)
    {
      match FromTimestamp(date)
      case Ok(t) =>
        lastDate := Some(t);
        err := None;
      case Err(e) =>
        err := Some(e);
    }

    /** `new_last_id(luid)` with `now` for `datetime.today()`. */
    method NewLastId(luid: int, now: int)
      modifies this`lastId
      ensures lastId == MergedLastId(lastDate, old(lastId), luid, now)
      ensures InWindow(lastDate, now) ==> lastId == if old(lastId) > luid then old(lastId) else luid
      ensures !InWindow(lastDate, now) ==> lastId == luid
    {
      lastId := MergedLastId(lastDate, lastId, luid, now);
    }

    /** `new_offset`. */
    method NewOffset()
      modifies this`offset
      ensures InSync(CursorState())
    {
      offset := lastId + 1;
    }

    /** `process_message`: a message with `chat.id` and `text` becomes a query; anything else raises `TypeError`. */
    method ProcessMessage(m: MessageObj) returns (err: Option<PyError>)
      modifies this`queries
      ensures queries == old(queries) + QueryOf(m)
      ensures err == if QueryOf(m) == [] then Some(TypeError) else None
    {
      var q := QueryOf(m);
      queries := queries + q;
      err := if q == [] then Some(TypeError) else None;
    }

    /** `process_updates`: the new state is the drain of the old queue; `cmds_pending` is never written. */
    method ProcessUpdates(now: int) returns (err: Option<PyError>)
      modifies this`offset, this`lastId, this`lastDate, this`updates, this`queries
      ensures Outcome(Snapshot(), updates, err) == Drain(old(Snapshot()), StartDate(old(lastDate)), old(updates), now)
      ensures cmdsPending == old(cmdsPending)
    {
      ghost var goal := Drain(Snapshot(), StartDate(lastDate), updates, now);
      var date := StartDate(lastDate);
      err := None;
      while updates != [] && err.None?
        invariant err.None? ==> Drain(Snapshot(), date, updates, now) == goal
        invariant err.Some? ==> Outcome(Snapshot(), updates, err) == goal
        decreases |updates|
      {
        ghost var s := Snapshot();
        ghost var d := date;
        var u := updates[0];
        updates := updates[1..];
        var msg := SelectMessage(u);
        if msg.Err? {
          err := Some(msg.error);
        } else {
          var m := msg.value;
          date := NextDate(m, date);
          err := NewLastDate(date);
          if err.None? {
            if u.updateId.None? {
              err := Some(KeyError);
            } else {
              NewLastId(u.updateId.value, now);
              NewOffset();
              var skipped := ProcessMessage(m);
            }
          }
        }
        assert Step(s, d, u, now) == StepResult(Snapshot(), date, err);
      }
    }
  }

  /** Two recent updates with ids 5 and 6 on a fresh handler leave the offset at 7 and queue both texts. */
  method IdsFiveAndSix() returns (h: UpdateHandler)
    ensures h.offset == 7 && h.lastId == 6
    ensures h.queries == [QueryItem(10, "hi"), QueryItem(10, "/start")]
  {
    var now := 1700000000;
    h := new UpdateHandler();
    var m1 := MessageObj(Some(now), None, Some(10), Some("hi"), true);
    var m2 := MessageObj(Some(now), None, Some(10), Some("/start"), true);
    var u1 := Update(Some(5), Some(m1), None);
    var u2 := Update(Some(6), Some(m2), None);
    h.ReceiveUpdates(true, [u1, u2]);
    assert h.updates == [u1, u2] && h.Snapshot() == Intake(Cursor(1, 0, None), []);
    var err := h.ProcessUpdates(now);
    var s1 := Intake(Cursor(6, 5, Some(now)), [QueryItem(10, "hi")]);
    assert Step(Intake(Cursor(1, 0, None), []), NoDate, u1, now) == StepResult(s1, Stamp(now), None);
    assert [u1, u2][1..] == [u2];
    var s2 := Intake(Cursor(7, 6, Some(now)), [QueryItem(10, "hi"), QueryItem(10, "/start")]);
    assert Step(s1, Stamp(now), u2, now) == StepResult(s2, Stamp(now), None);
    assert Drain(s1, Stamp(now), [u2], now) == Outcome(s2, [], None);
    assert Drain(Intake(Cursor(1, 0, None), []), NoDate, [u1, u2], now) == Outcome(s2, [], None);
  }

  /** A stale update resets the cursor: after id 100, an update with id 3 dated outside the window moves the offset back to 4. */
  method StaleUpdateResets() returns (h: UpdateHandler)
    ensures h.lastId == 3 && h.offset == 4
  {
    var now := 1700000000;
    h := new UpdateHandler();
    var u1 := Update(Some(100), Some(MessageObj(Some(now), None, Some(10), Some("hi"), true)), None);
    h.ReceiveUpdates(true, [u1]);
    assert h.updates == [u1];
    var err := h.ProcessUpdates(now);
    var s1 := Intake(Cursor(101, 100, Some(now)), [QueryItem(10, "hi")]);
    assert Drain(Intake(Cursor(1, 0, None), []), NoDate, [u1], now) == Outcome(s1, [], None);
    var u2 := Update(Some(3), Some(MessageObj(Some(1), None, None, None, true)), None);
    h.ReceiveUpdates(true, [u2]);
    assert h.updates == [u2] && h.Snapshot() == s1;
    err := h.ProcessUpdates(now);
    assert Drain(s1, DateTime(now), [u2], now) == Outcome(Intake(Cursor(4, 3, Some(1)), [QueryItem(10, "hi")]), [], None);
  }
}
