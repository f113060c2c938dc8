/** GetUpdatesChan's polling loop (updates.go). The goroutine keeps a cursor,
    `offset`, asks getUpdates for the updates from the cursor on, moves the
    cursor past every update id it sees and publishes every update on the
    bot's channel. A failed request changes nothing and the loop goes round
    again. The loop never ends; the model runs it for as many cycles as it
    is given replies for. */
module Updates {

  import opened Wrappers
  import opened Strconv
  import opened Values
  import opened Types
  import opened Methods

  /** What one getUpdates cycle came to, as the loop sees it. */
  datatype FetchResult = Fetched(batch: seq<Update>) | FetchFailed(description: string)

  /** The updates a result decodes to. json.Unmarshal's error is ignored by
      the loop, so a result that is not a list of updates is an empty batch. */
  function DecodeUpdates(result: RawResult): seq<Update> {
    if result.UpdateList? then result.updates else []
  }

  /** One cycle's request outcome: MakeRequest's error (a transport error or
      an envelope that is not Ok), or the decoded batch. */
  function FetchResultOf(t: Transport): (r: FetchResult)
    ensures r.FetchFailed? <==> t.TransportError? || !t.body.Ok
    ensures r.FetchFailed? && t.Delivered? ==> r.description == t.body.Description
    ensures r.Fetched? ==> r.batch == DecodeUpdates(t.body.Result)
  {
    var reply := MakeRequest(t);
    if reply.err.Some? then FetchFailed(reply.err.value) else Fetched(DecodeUpdates(reply.response.Result))
  }

  /** The getUpdates form: offset, limit and timeout, in that order, each
      sent exactly when it is positive. */
  function GetUpdatesValues(offset: int, limit: int, timeout: int): (v: Values)
    ensures Keys(v) == (if offset > 0 then ["offset"] else [])
                       + (if limit > 0 then ["limit"] else [])
                       + (if timeout > 0 then ["timeout"] else [])
  {
    var v0: Values := [];
    var v1 := if offset > 0 then Add(v0, "offset", Itoa(offset)) else v0;
    var v2 := if limit > 0 then Add(v1, "limit", Itoa(limit)) else v1;
    var k1: seq<string> := if offset > 0 then ["offset"] else [];
    assert Keys(v1) == k1 by { KeysAdd(v0, "offset", Itoa(offset)); }
    assert Keys(v2) == k1 + (if limit > 0 then ["limit"] else []) by { KeysAdd(v1, "limit", Itoa(limit)); }
    KeysAdd(v2, "timeout", Itoa(timeout));
    if timeout > 0 then Add(v2, "timeout", Itoa(timeout)) else v2
  }

  function GetUpdatesRequest(offset: int, limit: int, timeout: int): Request {
    PostForm("getUpdates", GetUpdatesValues(offset, limit, timeout))
  }

  /** What the server makes of a getUpdates form: an absent field is zero. */
  function DecodeUpdateConfig(v: Values): Option<UpdateConfig> {
    match (OptionalIntField(v, "offset"), OptionalIntField(v, "limit"), OptionalIntField(v, "timeout"))
    case (Some(offset), Some(limit), Some(timeout)) => Some(UpdateConfig(offset, limit, timeout))
    case _ => None
  }

  function Positive(x: int): nat {
    if x > 0 then x else 0
  }

  /** The form carries each positive value in decimal and drops the rest, so
      the server reads a negative offset, limit or timeout as zero. */
  lemma GetUpdatesRoundTrip(offset: int, limit: int, timeout: int)
    ensures DecodeUpdateConfig(GetUpdatesValues(offset, limit, timeout))
            == Some(UpdateConfig(Positive(offset), Positive(limit), Positive(timeout)))
  {
    GetUpdatesOffset(offset, limit, timeout);
    GetUpdatesLimit(offset, limit, timeout);
    GetUpdatesTimeout(offset, limit, timeout);
  }

  lemma GetUpdatesOffset(offset: int, limit: int, timeout: int)
    ensures OptionalIntField(GetUpdatesValues(offset, limit, timeout), "offset") == Some(Positive(offset))
  {
    var v := GetUpdatesValues(offset, limit, timeout);
    if offset > 0 {
      assert Get(v, "offset") == Some(Itoa(offset)) by { GetFirst(v, "offset", 0); }
    } else {
      assert Get(v, "offset").None? by { GetMeaning(v, "offset"); }
    }
    ItoaRoundTrip(offset);
  }

  lemma GetUpdatesLimit(offset: int, limit: int, timeout: int)
    ensures OptionalIntField(GetUpdatesValues(offset, limit, timeout), "limit") == Some(Positive(limit))
  {
    var v := GetUpdatesValues(offset, limit, timeout);
    if limit > 0 {
      assert Get(v, "limit") == Some(Itoa(limit)) by { GetFirst(v, "limit", if offset > 0 then 1 else 0); }
    } else {
      assert Get(v, "limit").None? by { GetMeaning(v, "limit"); }
    }
    ItoaRoundTrip(limit);
  }

  lemma GetUpdatesTimeout(offset: int, limit: int, timeout: int)
    ensures OptionalIntField(GetUpdatesValues(offset, limit, timeout), "timeout") == Some(Positive(timeout))
  {
    var v := GetUpdatesValues(offset, limit, timeout);
    if timeout > 0 {
      TimeoutSentLast(offset, limit, timeout);
    } else {
      assert Get(v, "timeout").None? by { GetMeaning(v, "timeout"); }
    }
    ItoaRoundTrip(timeout);
  }

  /** A positive timeout is the last field, after a form without one. */
  lemma TimeoutSentLast(offset: int, limit: int, timeout: int)
    requires timeout > 0
    ensures Get(GetUpdatesValues(offset, limit, timeout), "timeout") == Some(Itoa(timeout))
  {
    var w := GetUpdatesValues(offset, limit, 0);
    assert GetUpdatesValues(offset, limit, timeout) == Add(w, "timeout", Itoa(timeout));
    assert "timeout" !in Keys(w);
    GetAdd(w, "timeout", Itoa(timeout), "timeout");
  }

  /** The highest update id of a non-empty batch. */
  function MaxId(batch: seq<Update>): (m: int)
    requires batch != []
    ensures forall i :: 0 <= i < |batch| ==> batch[i].UpdateId <= m
    ensures exists i :: 0 <= i < |batch| && batch[i].UpdateId == m
  {
    var last := batch[|batch| - 1].UpdateId;
    if |batch| == 1 then last
    else
      var m := MaxId(batch[..|batch| - 1]);
      if m < last then last else m
  }

  /** The cursor after a successful batch: one past the highest id in it,
      or the old cursor if that is already further. It is the least value
      at or past the old cursor that is above every id of the batch. */
  function NextOffset(offset: int, batch: seq<Update>): (r: int)
    ensures r >= offset
    ensures forall i :: 0 <= i < |batch| ==> batch[i].UpdateId < r
    ensures r == offset || exists i :: 0 <= i < |batch| && r == batch[i].UpdateId + 1
    ensures batch == [] ==> r == offset
  {
    if batch == [] || MaxId(batch) < offset then offset else MaxId(batch) + 1
  }

  /** The loop's one step, seen from the end of the batch: the update looked
      at last moves the cursor only if its id is at or past the cursor. */
  lemma NextOffsetSnoc(offset: int, batch: seq<Update>, e: Update)
    ensures NextOffset(offset, batch + [e])
            == (var c := NextOffset(offset, batch); if e.UpdateId >= c then e.UpdateId + 1 else c)
  {
    if batch != [] {
      assert (batch + [e])[..|batch|] == batch;
    }
  }

  /** The cursor follows the highest id, not the last one. */
  lemma MaxNotLast(a: Update, b: Update, c: Update)
    requires a.UpdateId == 7 && b.UpdateId == 5 && c.UpdateId == 6
    ensures NextOffset(0, [a, b, c]) == 8
    ensures NextOffset(0, [b, c, a]) == 8
  {
    assert [a, b, c][..2] == [a, b] && [a, b][..1] == [a];
    assert MaxId([a, b, c]) == 7;
    assert [b, c, a][..2] == [b, c] && [b, c][..1] == [b];
    assert MaxId([b, c, a]) == 7;
  }

  /** The cursor after one round with this result. */
  function Advance(offset: int, result: FetchResult): int {
    if result.Fetched? then NextOffset(offset, result.batch) else offset
  }

  /** The updates one round with this result publishes. */
  function BatchOf(result: FetchResult): seq<Update> {
    if result.Fetched? then result.batch else []
  }

  /** The cursor after a run of rounds with these results. */
  function CursorAfter(offset: int, results: seq<FetchResult>): int {
    if results == [] then offset
    else Advance(CursorAfter(offset, results[..|results| - 1]), results[|results| - 1])
  }

  /** Everything a run of rounds publishes, in the order received. */
  function Published(results: seq<FetchResult>): seq<Update> {
    if results == [] then []
    else Published(results[..|results| - 1]) + BatchOf(results[|results| - 1])
  }

  /** CursorAfter and Published, one round further on. */
  lemma RunSnoc(offset: int, results: seq<FetchResult>, i: nat)
    requires i < |results|
    ensures CursorAfter(offset, results[..i + 1]) == Advance(CursorAfter(offset, results[..i]), results[i])
    ensures Published(results[..i + 1]) == Published(results[..i]) + BatchOf(results[i])
  {
    assert results[..i + 1][..i] == results[..i];
  }

  /** A queue that already holds the first i updates of a batch receives
      update i at its end. */
  lemma QueueSnoc(queue: seq<Update>, batch: seq<Update>, i: nat)
    requires i < |batch|
    ensures queue + batch[..i] + [batch[i]] == queue + batch[..i + 1]
  {
    assert batch[..i + 1] == batch[..i] + [batch[i]];
  }

  /** A queue that already holds what the first i rounds published receives
      round i's batch at its end. */
  lemma PublishedOnto(queue: seq<Update>, results: seq<FetchResult>, i: nat)
    requires i < |results|
    ensures queue + Published(results[..i + 1]) == queue + Published(results[..i]) + BatchOf(results[i])
  {
    RunSnoc(0, results, i);
  }

  /** The cursor never moves back, whatever mix of successes and failures. */
  lemma {:induction false} CursorMonotone(offset: int, results: seq<FetchResult>, k: nat)
    requires k <= |results|
    ensures CursorAfter(offset, results[..k]) <= CursorAfter(offset, results)
  {
    if k < |results| {
      var init := results[..|results| - 1];
      assert results[..k] == init[..k];
      CursorMonotone(offset, init, k);
      assert init[..|init|] == init;
    } else {
      assert results[..k] == results;
    }
  }

  /** Every update published so far has an id below the cursor, so the next
      request asks only for updates newer than all of them. */
  lemma {:induction false} NoRedelivery(offset: int, results: seq<FetchResult>)
    ensures forall e :: e in Published(results) ==> e.UpdateId < CursorAfter(offset, results)
  {
    if results != [] {
      var init := results[..|results| - 1];
      NoRedelivery(offset, init);
      match results[|results| - 1]
      case Fetched(batch) =>
        forall e | e in Published(results)
          ensures e.UpdateId < CursorAfter(offset, results)
        {
          if e in batch {
            var i :| 0 <= i < |batch| && batch[i] == e;
          }
        }
      case FetchFailed(_) =>
    }
  }

  /** With the non-negative ids the server hands out, once anything has been
      published the next getUpdates form carries the cursor as its offset
      field, and that cursor is above every published id. */
  lemma NextRequestSkipsPublished(offset: int, results: seq<FetchResult>, limit: int, timeout: int)
    requires forall e :: e in Published(results) ==> e.UpdateId >= 0
    requires Published(results) != []
    ensures var c := CursorAfter(offset, results);
      && Get(GetUpdatesValues(c, limit, timeout), "offset") == Some(Itoa(c))
      && forall e :: e in Published(results) ==> e.UpdateId < c
  {
    NoRedelivery(offset, results);
    var c := CursorAfter(offset, results);
    assert Published(results)[0] in Published(results);
    GetFirst(GetUpdatesValues(c, limit, timeout), "offset", 0);
  }

  /** The results of a run of cycles whose requests got these replies. */
  function Outcomes(replies: seq<Transport>): seq<FetchResult> {
    seq(|replies|, i requires 0 <= i < |replies| => FetchResultOf(replies[i]))
  }

  /** The state of the goroutine of GetUpdatesChan. */
  class Poller {
    var offset: int
    const limit: int
    const timeout: int
    /** Stands for the bot.updates channel: every update published so far,
        oldest first. */
    var updates: seq<Update>

    /** GetUpdatesChan's set-up: the cursor, limit and timeout come from the
        config, and the channel starts empty. */
    constructor (config: UpdateConfig)
      ensures offset == config.Offset && limit == config.Limit && timeout == config.Timeout
      ensures updates == []
    {
      offset := config.Offset;
      limit := config.Limit;
      timeout := config.Timeout;
      updates := [];
    }

    /** The request the next cycle sends. */
    function NextRequest(): Request
      reads this
    {
      GetUpdatesRequest(offset, limit, timeout)
    }

    /** What one cycle does with its request's outcome: on success every
        update of the batch is published in order, those below the cursor
        included, and the cursor moves past the highest id; on failure
        nothing happens. */
    method Step(result: FetchResult)
      modifies this
      ensures result.Fetched? ==> offset == NextOffset(old(offset), result.batch)
      ensures result.Fetched? ==> updates == old(updates) + result.batch
      ensures result.FetchFailed? ==> offset == old(offset) && updates == old(updates)
    {
      if result.Fetched? {
        var batch := result.batch;
        var i := 0;
        while i < |batch|
          invariant 0 <= i <= |batch|
          invariant offset == NextOffset(old(offset), batch[..i])
          invariant updates == old(updates) + batch[..i]
        {
          var e := batch[i];
          NextOffsetSnoc(old(offset), batch[..i], e);
          assert batch[..i + 1] == batch[..i] + [e];
          QueueSnoc(old(updates), batch, i);
          if e.UpdateId >= offset {
            offset := e.UpdateId + 1;
          }
          updates := updates + [e];
          i := i + 1;
        }
        assert batch[..i] == batch;
      }
    }

    /** Runs the loop for one cycle per reply: build the request from the
        cursor, take the reply through MakeRequest, and step. Returns the
        requests sent, in order. */
    method Poll(replies: seq<Transport>) returns (requests: seq<Request>)
      modifies this
      ensures |requests| == |replies|
      ensures forall i :: 0 <= i < |replies| ==>
                requests[i] == GetUpdatesRequest(CursorAfter(old(offset), Outcomes(replies)[..i]), limit, timeout)
      ensures offset == CursorAfter(old(offset), Outcomes(replies))
      ensures updates == old(updates) + Published(Outcomes(replies))
    {
      ghost var results := Outcomes(replies);
      requests := [];
      var i := 0;
      while i < |replies|
        invariant 0 <= i <= |replies|
        invariant |requests| == i
        invariant forall j :: 0 <= j < i ==>
                    requests[j] == GetUpdatesRequest(CursorAfter(old(offset), results[..j]), limit, timeout)
        invariant offset == CursorAfter(old(offset), results[..i])
        invariant updates == old(updates) + Published(results[..i])
      {
        var request := NextRequest();
        assert request == GetUpdatesRequest(CursorAfter(old(offset), results[..i]), limit, timeout);
        var result := FetchResultOf(replies[i]);
        Step(result);
        assert results[i] == result;
        RunSnoc(old(offset), results, i);
        PublishedOnto(old(updates), results, i);
        forall j | 0 <= j <= i
          ensures (requests + [request])[j] == GetUpdatesRequest(CursorAfter(old(offset), results[..j]), limit, timeout)
        {
          if j < i {
            assert (requests + [request])[j] == requests[j];
          }
        }
        requests := requests + [request];
        i := i + 1;
      }
      assert results[..i] == results;
    }
  }
}
