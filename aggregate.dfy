/** How `execute_cosmos_msgs` turns the simulator's per-message responses into
    one typed `ExecuteResponse`: all events in order, the data of the last
    response that has `Some` data decoded as `S` (or `S::default()`), the
    re-encoding of that value as raw data, and no gas. */
module Aggregate {
  import opened Basics
  import opened Outcomes
  import Cosmos

  /** `cw_multi_test::AppResponse`. */
  datatype AppResponse = AppResponse(events: seq<Cosmos.Event>, data: Option<Bytes>)

  datatype GasInfo = GasInfo(gasWanted: u64, gasUsed: u64)

  /** `test_tube::ExecuteResponse<S>`. */
  datatype ExecuteResponse<S> = ExecuteResponse(data: S, rawData: Bytes, events: seq<Cosmos.Event>, gasInfo: GasInfo)

  /** `S: prost::Message + Default`: decode, encode and the default value. */
  datatype ResponseCodec<!S> = ResponseCodec(decode: Bytes -> Result<S, string>, encode: S -> Bytes, default: S)

  /** `flat_map(|r| r.events.clone())`. */
  function AllEvents(rs: seq<AppResponse>): (es: seq<Cosmos.Event>)
    ensures |es| == 0 <==> forall i :: 0 <= i < |rs| ==> |rs[i].events| == 0
  {
    if |rs| == 0 then [] else rs[0].events + AllEvents(rs[1..])
  }

  /** Every event of every response is kept, and no event is added. */
  lemma {:induction false} AllEventsMembers(rs: seq<AppResponse>)
    ensures forall i, e :: 0 <= i < |rs| && e in rs[i].events ==> e in AllEvents(rs)
    ensures forall e :: e in AllEvents(rs) ==> exists i :: 0 <= i < |rs| && e in rs[i].events
    decreases |rs|
  {
    if |rs| > 0 {
      AllEventsMembers(rs[1..]);
      forall i, e | 0 <= i < |rs| && e in rs[i].events ensures e in AllEvents(rs) {
        if i > 0 {
          assert rs[1..][i - 1] == rs[i];
        }
      }
      forall e | e in AllEvents(rs) ensures exists i :: 0 <= i < |rs| && e in rs[i].events {
        if e !in rs[0].events {
          var j :| 0 <= j < |rs[1..]| && e in rs[1..][j].events;
          assert rs[j + 1] == rs[1..][j];
        }
      }
    }
  }

  /** The events of a batch are those of its parts, in order. */
  lemma {:induction false} AllEventsConcat(a: seq<AppResponse>, b: seq<AppResponse>)
    ensures AllEvents(a + b) == AllEvents(a) + AllEvents(b)
    decreases |a|
  {
    if |a| == 0 {
      assert a + b == b;
    } else {
      assert (a + b)[1..] == a[1..] + b;
      AllEventsConcat(a[1..], b);
    }
  }

  /** `map(|r| r.data.clone()).filter(|d| d.is_some())`: `Some(empty bytes)` stays. */
  function PresentData(rs: seq<AppResponse>): (tmp: seq<Option<Bytes>>)
    ensures |tmp| <= |rs|
    ensures |tmp| == 0 <==> forall i :: 0 <= i < |rs| ==> rs[i].data.None?
    ensures forall o :: o in tmp ==> o.Some?
  {
    if |rs| == 0 then []
    else (if rs[0].data.Some? then [rs[0].data] else []) + PresentData(rs[1..])
  }

  /** `tmp.last().unwrap_or(&None)`. */
  function LastData(rs: seq<AppResponse>): (last: Option<Bytes>)
    ensures last.None? <==> forall i :: 0 <= i < |rs| ==> rs[i].data.None?
  {
    var tmp := PresentData(rs);
    if |tmp| == 0 then None else assert tmp[|tmp| - 1] in tmp; tmp[|tmp| - 1]
  }

  /** Response `i` is the last one of the batch that carries data. */
  predicate IsLastWithData(rs: seq<AppResponse>, i: int) {
    0 <= i < |rs| && rs[i].data.Some? && forall j :: i < j < |rs| ==> rs[j].data.None?
  }

  lemma {:induction false} PresentDataSnoc(rs: seq<AppResponse>, r: AppResponse)
    ensures PresentData(rs + [r]) == PresentData(rs) + (if r.data.Some? then [r.data] else [])
    decreases |rs|
  {
    if |rs| == 0 {
      assert rs + [r] == [r];
      assert [r][1..] == [];
    } else {
      assert (rs + [r])[1..] == rs[1..] + [r];
      PresentDataSnoc(rs[1..], r);
    }
  }

  /** The data of the last response that carries data is the one chosen. */
  lemma {:induction false} LastWithDataIsChosen(rs: seq<AppResponse>, i: int)
    requires IsLastWithData(rs, i)
    ensures LastData(rs) == rs[i].data
    decreases |rs|
  {
    var n := |rs|;
    var init, r := rs[..n - 1], rs[n - 1];
    assert rs == init + [r];
    PresentDataSnoc(init, r);
    if i < n - 1 {
      assert PresentData(rs) == PresentData(init);
      assert IsLastWithData(init, i) by {
        assert rs[i] == init[i];
      }
      LastWithDataIsChosen(init, i);
    }
  }

  /** Chosen data always belongs to a last response that carries data. */
  lemma {:induction false} ChosenIsLastWithData(rs: seq<AppResponse>)
    requires LastData(rs).Some?
    ensures exists i :: IsLastWithData(rs, i)
    decreases |rs|
  {
    var n := |rs|;
    var init, r := rs[..n - 1], rs[n - 1];
    assert rs == init + [r];
    PresentDataSnoc(init, r);
    if r.data.Some? {
      assert IsLastWithData(rs, n - 1);
    } else {
      assert PresentData(rs) == PresentData(init);
      ChosenIsLastWithData(init);
      var i :| IsLastWithData(init, i);
      assert rs[i] == init[i];
      assert IsLastWithData(rs, i);
    }
  }

  /** The filter-then-last chain selects the data of the last response whose
      data is `Some`, and yields `None` exactly when no response has data. */
  lemma LastDataIsLastPresent(rs: seq<AppResponse>)
    ensures LastData(rs).None? <==> forall i :: 0 <= i < |rs| ==> rs[i].data.None?
    ensures forall i :: IsLastWithData(rs, i) ==> LastData(rs) == rs[i].data
    ensures LastData(rs).Some? ==> exists i :: IsLastWithData(rs, i)
  {
    forall i | IsLastWithData(rs, i) ensures LastData(rs) == rs[i].data {
      LastWithDataIsChosen(rs, i);
    }
    if LastData(rs).Some? {
      ChosenIsLastWithData(rs);
    }
  }

  /** `S::decode(d).unwrap()` for the chosen data, or `S::default()`. */
  function ResponseData<S>(rs: seq<AppResponse>, codec: ResponseCodec<S>): (r: Outcome<S>)
    ensures !r.Err?
    ensures (forall i :: 0 <= i < |rs| ==> rs[i].data.None?) ==> r == Ok(codec.default)
    ensures r.Panic? ==> LastData(rs).Some? && codec.decode(LastData(rs).value).Failure?
  {
    match LastData(rs)
    case Some(d) =>
      (match codec.decode(d)
       case Success(s) => Ok(s)
       case Failure(e) => Panic(UnwrapResponseDecode(e)))
    case None => Ok(codec.default)
  }

  /** The response assembled around a decoded payload. */
  function Assembled<S>(data: S, rs: seq<AppResponse>, codec: ResponseCodec<S>): ExecuteResponse<S> {
    ExecuteResponse(data, codec.encode(data), AllEvents(rs), GasInfo(0, 0))
  }

  /** The successful branch of `execute_cosmos_msgs`. */
  function Aggregate<S>(rs: seq<AppResponse>, codec: ResponseCodec<S>): (r: Outcome<ExecuteResponse<S>>)
    ensures !r.Err?
    ensures r.Ok? ==> r.value.rawData == codec.encode(r.value.data)
    ensures r.Ok? ==> r.value.events == AllEvents(rs) && r.value.gasInfo == GasInfo(0, 0)
  {
    var data :- ResponseData(rs, codec);
    Ok(Assembled(data, rs, codec))
  }

  /** Aggregation never returns an error. When no response has data the
      payload is the default; otherwise it is decoded from the last response
      that has data, even empty data, and an undecodable payload panics.
      Raw data is always the re-encoding of the payload and gas is 0/0. */
  lemma AggregateSpec<S>(rs: seq<AppResponse>, codec: ResponseCodec<S>)
    ensures !Aggregate(rs, codec).Err?
    ensures Aggregate(rs, codec).Ok? ==>
      var r := Aggregate(rs, codec).value;
      r.rawData == codec.encode(r.data) && r.events == AllEvents(rs) && r.gasInfo == GasInfo(0, 0)
    ensures (forall i :: 0 <= i < |rs| ==> rs[i].data.None?) ==>
      Aggregate(rs, codec) == Ok(Assembled(codec.default, rs, codec))
    ensures forall i :: IsLastWithData(rs, i) && codec.decode(rs[i].data.value).Success? ==>
      Aggregate(rs, codec) == Ok(Assembled(codec.decode(rs[i].data.value).value, rs, codec))
    ensures forall i :: IsLastWithData(rs, i) && codec.decode(rs[i].data.value).Failure? ==>
      Aggregate(rs, codec) == Panic(UnwrapResponseDecode(codec.decode(rs[i].data.value).error))
  {
    LastDataIsLastPresent(rs);
  }

  /** An empty batch answers with the default payload and no events. */
  lemma EmptyBatch<S>(codec: ResponseCodec<S>)
    ensures Aggregate([], codec) == Ok(ExecuteResponse(codec.default, codec.encode(codec.default), [], GasInfo(0, 0)))
  {
  }

  /** Data `[None, Some(a), None, Some(b)]` resolves to the decoding of `b`;
      `Some` of empty bytes still wins over earlier data. */
  lemma LastDataWins<S>(e: seq<Cosmos.Event>, a: Bytes, b: Bytes, codec: ResponseCodec<S>)
    requires codec.decode(b).Success?
    ensures
      var rs := [AppResponse(e, None), AppResponse(e, Some(a)), AppResponse(e, None), AppResponse(e, Some(b))];
      Aggregate(rs, codec) == Ok(ExecuteResponse(codec.decode(b).value, codec.encode(codec.decode(b).value), e + e + e + e, GasInfo(0, 0)))
    ensures codec.decode([]).Success? ==>
      Aggregate([AppResponse(e, Some(a)), AppResponse([], Some([]))], codec).Ok?
      && Aggregate([AppResponse(e, Some(a)), AppResponse([], Some([]))], codec).value.data == codec.decode([]).value
  {
    var rs := [AppResponse(e, None), AppResponse(e, Some(a)), AppResponse(e, None), AppResponse(e, Some(b))];
    assert IsLastWithData(rs, 3);
    AggregateSpec(rs, codec);
    assert AllEvents(rs) == e + e + e + e by {
      assert rs[1..] == [rs[1], rs[2], rs[3]];
      assert rs[1..][1..] == [rs[2], rs[3]];
      assert rs[1..][1..][1..] == [rs[3]];
      assert rs[1..][1..][1..][1..] == [];
      assert AllEvents([rs[3]]) == e;
      assert AllEvents([rs[2], rs[3]]) == e + e;
      assert AllEvents(rs[1..]) == e + e + e;
    }
    var ts := [AppResponse(e, Some(a)), AppResponse([], Some([]))];
    assert IsLastWithData(ts, 1);
    AggregateSpec(ts, codec);
  }
}
