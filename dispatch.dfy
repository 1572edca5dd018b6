/** The message adapter of `execute_multiple_raw` and `execute_multiple`:
    each tagged `Any` becomes a canonical `CosmosMsg` by exact match of its
    type URL against nine known schemas, anything else passes through as a
    `Stargate` message, and a batch is converted with first-failure
    short-circuit. */
module Dispatch {
  import opened Basics
  import opened Uint128
  import opened Outcomes
  import Cosmos
  import Proto

  /** `.map_err(DecodeError::ProtoDecodeError)?` on a decoder's result. */
  function Decoded<T>(r: Result<T, string>): (o: Outcome<T>)
    ensures o.Ok? <==> r.Success?
    ensures r.Success? ==> o.value == r.value
    ensures r.Failure? ==> o == Err(DecodeError(r.error))
  {
    match r
    case Success(v) => Ok(v)
    case Failure(e) => Err(DecodeError(e))
  }

  /** `coin(u128::from_str(&c.amount).unwrap(), c.denom)`. */
  function ConvertCoin(c: Proto.Coin): (r: Outcome<Cosmos.Coin>)
    ensures r.Ok? <==> IsU128Literal(c.amount)
    ensures r.Ok? ==> IsU128Literal(c.amount) && r.value == Cosmos.Coin(c.denom, LiteralValue(c.amount))
    ensures r.Panic? <==> !r.Ok?
  {
    match ParseU128(c.amount)
    case Success(n) => Ok(Cosmos.Coin(c.denom, n))
    case Failure(kind) => Panic(UnwrapParseInt(kind))
  }

  /** Amount `k` is the first in `cs` that is not a valid 128-bit literal. */
  predicate FirstInvalid(cs: seq<Proto.Coin>, k: int) {
    0 <= k < |cs| && !IsU128Literal(cs[k].amount)
    && forall i :: 0 <= i < k ==> IsU128Literal(cs[i].amount)
  }

  /** A coin list, converted in order; the first bad amount panics. */
  function ConvertCoins(cs: seq<Proto.Coin>): (r: Outcome<seq<Cosmos.Coin>>)
    ensures r.Ok? <==> forall i :: 0 <= i < |cs| ==> IsU128Literal(cs[i].amount)
    ensures r.Ok? ==> |r.value| == |cs| && forall i :: 0 <= i < |cs| ==>
      IsU128Literal(cs[i].amount) && r.value[i] == Cosmos.Coin(cs[i].denom, LiteralValue(cs[i].amount))
    ensures r.Panic? <==> !r.Ok?
    ensures r.Panic? ==> exists k :: FirstInvalid(cs, k) && r.cause == UnwrapParseInt(ParseU128(cs[k].amount).error)
  {
    var os := seq(|cs|, i requires 0 <= i < |cs| => ConvertCoin(cs[i]));
    var r := Collect(os);
    assert forall i :: 0 <= i < |cs| ==> os[i] == ConvertCoin(cs[i]);
    assert !r.Ok? ==> exists k :: FirstFailure(os, k) && SameFailure(r, os[k]);
    assert forall k :: FirstFailure(os, k) ==> FirstInvalid(cs, k);
    r
  }

  /** The dispatch on one tagged message (runner.rs, the `match` on the type URL). */
  function ConvertAny(a: Proto.Any, d: Proto.Decoders): (r: Outcome<Cosmos.CosmosMsg>)
    ensures !Proto.IsKnownTag(a.typeUrl) ==> r == Ok(Cosmos.Stargate(a.typeUrl, a.value))
    ensures r.Ok? ==> TypeUrl(r.value) == a.typeUrl
    ensures r.Err? ==> Proto.IsKnownTag(a.typeUrl) && r.error.DecodeError?
  {
    var url := a.typeUrl;
    if url == Proto.EXECUTE_CONTRACT_URL then
      var m :- Decoded(d.execute(a.value));
      var funds :- ConvertCoins(m.funds);
      Ok(Cosmos.Wasm(Cosmos.Execute(m.contract, m.msg, funds)))
    else if url == Proto.INSTANTIATE_CONTRACT_URL then
      var m :- Decoded(d.instantiate(a.value));
      var funds :- ConvertCoins(m.funds);
      Ok(Cosmos.Wasm(Cosmos.Instantiate(Some(m.admin), m.codeId, m.msg, funds, m.contractLabel)))
    else if url == Proto.MIGRATE_CONTRACT_URL then
      var m :- Decoded(d.migrate(a.value));
      Ok(Cosmos.Wasm(Cosmos.Migrate(m.contract, m.codeId, m.msg)))
    else if url == Proto.UPDATE_ADMIN_URL then
      var m :- Decoded(d.updateAdmin(a.value));
      Ok(Cosmos.Wasm(Cosmos.UpdateAdmin(m.contract, m.newAdmin)))
    else if url == Proto.CLEAR_ADMIN_URL then
      var m :- Decoded(d.clearAdmin(a.value));
      Ok(Cosmos.Wasm(Cosmos.ClearAdmin(m.contract)))
    else if url == Proto.SEND_URL then
      var m :- Decoded(d.send(a.value));
      var amount :- ConvertCoins(m.amount);
      Ok(Cosmos.Bank(Cosmos.Send(m.toAddress, amount)))
    else if url == Proto.DELEGATE_URL then
      var m :- Decoded(d.delegate(a.value));
      var amount :- ConvertCoin(m.amount.GetOr(Proto.DEFAULT_COIN));
      Ok(Cosmos.Staking(Cosmos.Delegate(m.validatorAddress, amount)))
    else if url == Proto.UNDELEGATE_URL then
      var m :- Decoded(d.undelegate(a.value));
      var amount :- ConvertCoin(m.amount.GetOr(Proto.DEFAULT_COIN));
      Ok(Cosmos.Staking(Cosmos.Undelegate(m.validatorAddress, amount)))
    else if url == Proto.BEGIN_REDELEGATE_URL then
      var m :- Decoded(d.beginRedelegate(a.value));
      var amount :- ConvertCoin(m.amount.GetOr(Proto.DEFAULT_COIN));
      Ok(Cosmos.Staking(Cosmos.Redelegate(m.validatorSrcAddress, m.validatorDstAddress, amount)))
    else
      Ok(Cosmos.Stargate(a.typeUrl, a.value))
  }

  /** The batch conversion: the `collect::<Result<Vec<_>, RunnerError>>()`. */
  function ConvertAll(anys: seq<Proto.Any>, d: Proto.Decoders): (r: Outcome<seq<Cosmos.CosmosMsg>>)
    ensures r.Ok? <==> forall i :: 0 <= i < |anys| ==> ConvertAny(anys[i], d).Ok?
    ensures r.Ok? ==> |r.value| == |anys| && forall i :: 0 <= i < |anys| ==>
      ConvertAny(anys[i], d).Ok? && r.value[i] == ConvertAny(anys[i], d).value
    ensures !r.Ok? ==> exists k :: (0 <= k < |anys| && SameFailure(r, ConvertAny(anys[k], d))
      && !ConvertAny(anys[k], d).Ok? && forall i :: 0 <= i < k ==> ConvertAny(anys[i], d).Ok?)
  {
    var os := seq(|anys|, i requires 0 <= i < |anys| => ConvertAny(anys[i], d));
    var r := Collect(os);
    assert forall i :: 0 <= i < |anys| ==> os[i] == ConvertAny(anys[i], d);
    assert !r.Ok? ==> exists k :: FirstFailure(os, k) && SameFailure(r, os[k]);
    r
  }

  /** `M::encode` into a buffer, wrapped as an `Any` under the caller's type URL. */
  function EncodeOne<M>(msg: (M, string), encode: M -> Result<Bytes, string>): (r: Outcome<Proto.Any>)
    ensures r.Ok? <==> encode(msg.0).Success?
    ensures r.Ok? ==> r.value == Proto.Any(msg.1, encode(msg.0).value)
    ensures !r.Panic?
  {
    match encode(msg.0)
    case Success(bytes) => Ok(Proto.Any(msg.1, bytes))
    case Failure(e) => Err(EncodeError(e))
  }

  /** The encoding step of `execute_multiple`: every message encoded in order,
      or the first encoding error; it never panics. */
  function EncodeAll<M>(msgs: seq<(M, string)>, encode: M -> Result<Bytes, string>): (r: Outcome<seq<Proto.Any>>)
    ensures r.Ok? <==> forall i :: 0 <= i < |msgs| ==> encode(msgs[i].0).Success?
    ensures r.Ok? ==> |r.value| == |msgs| && forall i :: 0 <= i < |msgs| ==>
      encode(msgs[i].0).Success? && r.value[i] == Proto.Any(msgs[i].1, encode(msgs[i].0).value)
    ensures !r.Ok? ==> exists k :: (0 <= k < |msgs| && encode(msgs[k].0).Failure?
      && r == Err(EncodeError(encode(msgs[k].0).error))
      && forall i :: 0 <= i < k ==> encode(msgs[i].0).Success?)
  {
    var os := seq(|msgs|, i requires 0 <= i < |msgs| => EncodeOne(msgs[i], encode));
    var r := Collect(os);
    assert forall i :: 0 <= i < |msgs| ==> os[i] == EncodeOne(msgs[i], encode);
    assert !r.Ok? ==> exists k :: FirstFailure(os, k) && SameFailure(r, os[k]);
    r
  }

  // ----- properties of the dispatch -----

  /** A tag outside the nine is never decoded: the message passes through with
      identical tag and bytes. Conversely a `Stargate` result only ever comes
      from an unknown tag. */
  lemma PassthroughExactlyForUnknownTags(a: Proto.Any, d: Proto.Decoders)
    ensures ConvertAny(a, d) == Ok(Cosmos.Stargate(a.typeUrl, a.value)) <==> !Proto.IsKnownTag(a.typeUrl)
    ensures ConvertAny(a, d).Ok? && ConvertAny(a, d).value.Stargate? ==>
      !Proto.IsKnownTag(a.typeUrl) && ConvertAny(a, d).value == Cosmos.Stargate(a.typeUrl, a.value)
  {
  }

  /** The type URL under which the runner decodes a canonical message back. */
  function TypeUrl(msg: Cosmos.CosmosMsg): string {
    match msg
    case Wasm(Execute(_, _, _)) => Proto.EXECUTE_CONTRACT_URL
    case Wasm(Instantiate(_, _, _, _, _)) => Proto.INSTANTIATE_CONTRACT_URL
    case Wasm(Migrate(_, _, _)) => Proto.MIGRATE_CONTRACT_URL
    case Wasm(UpdateAdmin(_, _)) => Proto.UPDATE_ADMIN_URL
    case Wasm(ClearAdmin(_)) => Proto.CLEAR_ADMIN_URL
    case Bank(Send(_, _)) => Proto.SEND_URL
    case Staking(Delegate(_, _)) => Proto.DELEGATE_URL
    case Staking(Undelegate(_, _)) => Proto.UNDELEGATE_URL
    case Staking(Redelegate(_, _, _)) => Proto.BEGIN_REDELEGATE_URL
    case Stargate(url, _) => url
  }

  /** A converted instantiation always carries `Some` admin, the decoded
      one, even when that is the empty string. */
  lemma InstantiateAdminAlwaysSome(a: Proto.Any, d: Proto.Decoders)
    ensures ConvertAny(a, d).Ok? && ConvertAny(a, d).value.Wasm? && ConvertAny(a, d).value.wasm.Instantiate? ==>
      d.instantiate(a.value).Success? && ConvertAny(a, d).value.wasm.admin == Some(d.instantiate(a.value).value.admin)
  {
  }

  function Rejection<T>(r: Result<T, string>): Option<string> {
    if r.Failure? then Some(r.error) else None
  }

  /** What the decoder of the message's tag reports, if it rejects the bytes. */
  function DecoderRejection(a: Proto.Any, d: Proto.Decoders): Option<string> {
    var v := a.value;
    if a.typeUrl == Proto.EXECUTE_CONTRACT_URL then Rejection(d.execute(v))
    else if a.typeUrl == Proto.INSTANTIATE_CONTRACT_URL then Rejection(d.instantiate(v))
    else if a.typeUrl == Proto.MIGRATE_CONTRACT_URL then Rejection(d.migrate(v))
    else if a.typeUrl == Proto.UPDATE_ADMIN_URL then Rejection(d.updateAdmin(v))
    else if a.typeUrl == Proto.CLEAR_ADMIN_URL then Rejection(d.clearAdmin(v))
    else if a.typeUrl == Proto.SEND_URL then Rejection(d.send(v))
    else if a.typeUrl == Proto.DELEGATE_URL then Rejection(d.delegate(v))
    else if a.typeUrl == Proto.UNDELEGATE_URL then Rejection(d.undelegate(v))
    else if a.typeUrl == Proto.BEGIN_REDELEGATE_URL then Rejection(d.beginRedelegate(v))
    else None
  }

  /** A returned error comes from a known tag's decoder and from nowhere else;
      a bad coin amount is never a returned error. */
  lemma DecodeErrorExactlyOnRejection(a: Proto.Any, d: Proto.Decoders)
    ensures ConvertAny(a, d).Err? <==> DecoderRejection(a, d).Some?
    ensures ConvertAny(a, d).Err? ==>
      Proto.IsKnownTag(a.typeUrl) && ConvertAny(a, d).error == DecodeError(DecoderRejection(a, d).value)
  {
  }

  /** A staking message without an amount falls back to the default proto
      coin, whose empty amount makes the parse `unwrap` panic. */
  lemma StakingWithoutAmountPanics(a: Proto.Any, d: Proto.Decoders)
    requires
      || (a.typeUrl == Proto.DELEGATE_URL && d.delegate(a.value).Success? && d.delegate(a.value).value.amount.None?)
      || (a.typeUrl == Proto.UNDELEGATE_URL && d.undelegate(a.value).Success? && d.undelegate(a.value).value.amount.None?)
      || (a.typeUrl == Proto.BEGIN_REDELEGATE_URL && d.beginRedelegate(a.value).Success? && d.beginRedelegate(a.value).value.amount.None?)
    ensures ConvertAny(a, d) == Panic(UnwrapParseInt(Empty))
  {
  }

  /** The first bad amount decides the panic: its parse error is the cause,
      whatever follows it in the list. */
  lemma ConvertCoinsPanicsAtFirstInvalid(cs: seq<Proto.Coin>, k: int)
    requires FirstInvalid(cs, k)
    ensures ConvertCoins(cs) == Panic(UnwrapParseInt(ParseU128(cs[k].amount).error))
  {
  }

  /** Amounts are read as `u128::from_str` reads them: leading zeros and one
      leading `+` are accepted, anything else that is not a digit is refused. */
  lemma AmountSyntax()
    ensures ParseU128("007") == Success(7)
    ensures ParseU128("+7") == Success(7)
    ensures ParseU128("12a") == Failure(InvalidDigit)
    ensures ParseU128("-7") == Failure(InvalidDigit)
    ensures ParseU128("") == Failure(Empty)
  {
  }

  /** A decoded execution or instantiation converts with every fund at the
      value of its amount, or panics with the parse error of its first bad
      amount; nothing in between is a returned error. */
  lemma ContractConversion(a: Proto.Any, d: Proto.Decoders)
    ensures a.typeUrl == Proto.EXECUTE_CONTRACT_URL && d.execute(a.value).Success? ==>
      var m := d.execute(a.value).value;
      && (ConvertCoins(m.funds).Ok? ==>
            ConvertAny(a, d) == Ok(Cosmos.Wasm(Cosmos.Execute(m.contract, m.msg, ConvertCoins(m.funds).value))))
      && (forall k :: FirstInvalid(m.funds, k) ==>
            ConvertAny(a, d) == Panic(UnwrapParseInt(ParseU128(m.funds[k].amount).error)))
    ensures a.typeUrl == Proto.INSTANTIATE_CONTRACT_URL && d.instantiate(a.value).Success? ==>
      var m := d.instantiate(a.value).value;
      && (ConvertCoins(m.funds).Ok? ==>
            ConvertAny(a, d) == Ok(Cosmos.Wasm(Cosmos.Instantiate(Some(m.admin), m.codeId, m.msg, ConvertCoins(m.funds).value, m.contractLabel))))
      && (forall k :: FirstInvalid(m.funds, k) ==>
            ConvertAny(a, d) == Panic(UnwrapParseInt(ParseU128(m.funds[k].amount).error)))
  {
    if a.typeUrl == Proto.EXECUTE_CONTRACT_URL && d.execute(a.value).Success? {
      var m := d.execute(a.value).value;
      forall k | FirstInvalid(m.funds, k)
        ensures ConvertAny(a, d) == Panic(UnwrapParseInt(ParseU128(m.funds[k].amount).error))
      {
        ConvertCoinsPanicsAtFirstInvalid(m.funds, k);
      }
    }
    if a.typeUrl == Proto.INSTANTIATE_CONTRACT_URL && d.instantiate(a.value).Success? {
      var m := d.instantiate(a.value).value;
      forall k | FirstInvalid(m.funds, k)
        ensures ConvertAny(a, d) == Panic(UnwrapParseInt(ParseU128(m.funds[k].amount).error))
      {
        ConvertCoinsPanicsAtFirstInvalid(m.funds, k);
      }
    }
  }

  /** A decoded bank send converts with every coin at the value of its
      amount, or panics with the parse error of its first bad amount. */
  lemma SendConversion(a: Proto.Any, d: Proto.Decoders)
    requires a.typeUrl == Proto.SEND_URL && d.send(a.value).Success?
    ensures var m := d.send(a.value).value;
      ConvertCoins(m.amount).Ok? ==> ConvertAny(a, d) == Ok(Cosmos.Bank(Cosmos.Send(m.toAddress, ConvertCoins(m.amount).value)))
    ensures var m := d.send(a.value).value;
      forall k :: FirstInvalid(m.amount, k) ==> ConvertAny(a, d) == Panic(UnwrapParseInt(ParseU128(m.amount[k].amount).error))
  {
    var m := d.send(a.value).value;
    forall k | FirstInvalid(m.amount, k)
      ensures ConvertAny(a, d) == Panic(UnwrapParseInt(ParseU128(m.amount[k].amount).error))
    {
      ConvertCoinsPanicsAtFirstInvalid(m.amount, k);
    }
  }

  /** A decoded staking message with an amount converts it at its value, or
      panics with that amount's parse error. */
  lemma StakingConversion(a: Proto.Any, d: Proto.Decoders, c: Proto.Coin)
    ensures a.typeUrl == Proto.DELEGATE_URL && d.delegate(a.value).Success? && d.delegate(a.value).value.amount == Some(c) ==>
      ConvertAny(a, d) == if IsU128Literal(c.amount)
        then Ok(Cosmos.Staking(Cosmos.Delegate(d.delegate(a.value).value.validatorAddress, Cosmos.Coin(c.denom, LiteralValue(c.amount)))))
        else Panic(UnwrapParseInt(ParseU128(c.amount).error))
    ensures a.typeUrl == Proto.UNDELEGATE_URL && d.undelegate(a.value).Success? && d.undelegate(a.value).value.amount == Some(c) ==>
      ConvertAny(a, d) == if IsU128Literal(c.amount)
        then Ok(Cosmos.Staking(Cosmos.Undelegate(d.undelegate(a.value).value.validatorAddress, Cosmos.Coin(c.denom, LiteralValue(c.amount)))))
        else Panic(UnwrapParseInt(ParseU128(c.amount).error))
    ensures a.typeUrl == Proto.BEGIN_REDELEGATE_URL && d.beginRedelegate(a.value).Success? && d.beginRedelegate(a.value).value.amount == Some(c) ==>
      var m := d.beginRedelegate(a.value).value;
      ConvertAny(a, d) == if IsU128Literal(c.amount)
        then Ok(Cosmos.Staking(Cosmos.Redelegate(m.validatorSrcAddress, m.validatorDstAddress, Cosmos.Coin(c.denom, LiteralValue(c.amount)))))
        else Panic(UnwrapParseInt(ParseU128(c.amount).error))
  {
  }

  /** The three admin and migration messages carry no coins: once decoded
      they always convert, field for field. */
  lemma AdminConversion(a: Proto.Any, d: Proto.Decoders)
    ensures a.typeUrl == Proto.MIGRATE_CONTRACT_URL && d.migrate(a.value).Success? ==>
      var m := d.migrate(a.value).value;
      ConvertAny(a, d) == Ok(Cosmos.Wasm(Cosmos.Migrate(m.contract, m.codeId, m.msg)))
    ensures a.typeUrl == Proto.UPDATE_ADMIN_URL && d.updateAdmin(a.value).Success? ==>
      var m := d.updateAdmin(a.value).value;
      ConvertAny(a, d) == Ok(Cosmos.Wasm(Cosmos.UpdateAdmin(m.contract, m.newAdmin)))
    ensures a.typeUrl == Proto.CLEAR_ADMIN_URL && d.clearAdmin(a.value).Success? ==>
      ConvertAny(a, d) == Ok(Cosmos.Wasm(Cosmos.ClearAdmin(d.clearAdmin(a.value).value.contract)))
  {
  }

  // ----- round trip: canonical message -> proto -> canonical message -----

  /** The proto form of a canonical coin: its amount rendered in decimal. */
  function ProtoCoin(c: Cosmos.Coin): Proto.Coin {
    Proto.Coin(c.denom, Decimal(c.amount))
  }

  function ProtoCoins(cs: seq<Cosmos.Coin>): (ps: seq<Proto.Coin>)
    ensures |ps| == |cs| && forall i :: 0 <= i < |cs| ==> ps[i] == ProtoCoin(cs[i])
  {
    seq(|cs|, i requires 0 <= i < |cs| => ProtoCoin(cs[i]))
  }

  lemma ConvertCoinsRoundTrip(cs: seq<Cosmos.Coin>)
    ensures ConvertCoins(ProtoCoins(cs)) == Ok(cs)
  {
    var ps := ProtoCoins(cs);
    forall i | 0 <= i < |cs|
      ensures IsU128Literal(ps[i].amount) && LiteralValue(ps[i].amount) == cs[i].amount
    {
      DecimalRoundTrip(cs[i].amount);
    }
    assert ConvertCoins(ps).value == cs;
  }

  /** Whether the decoder of `msg`'s tag reads `bytes` as the proto message
      that `msg` stands for, sent by `sender`. An instantiation with no
      admin and a `Stargate` message under a known tag have no such form. */
  predicate DecodesAs(d: Proto.Decoders, bytes: Bytes, sender: string, msg: Cosmos.CosmosMsg) {
    match msg
    case Wasm(Execute(contract, m, funds)) =>
      d.execute(bytes) == Success(Proto.MsgExecuteContract(sender, contract, m, ProtoCoins(funds)))
    case Wasm(Instantiate(admin, codeId, m, funds, contractLabel)) =>
      admin.Some? && d.instantiate(bytes) == Success(Proto.MsgInstantiateContract(sender, admin.value, codeId, contractLabel, m, ProtoCoins(funds)))
    case Wasm(Migrate(contract, codeId, m)) =>
      d.migrate(bytes) == Success(Proto.MsgMigrateContract(sender, contract, codeId, m))
    case Wasm(UpdateAdmin(contract, admin)) =>
      d.updateAdmin(bytes) == Success(Proto.MsgUpdateAdmin(sender, admin, contract))
    case Wasm(ClearAdmin(contract)) =>
      d.clearAdmin(bytes) == Success(Proto.MsgClearAdmin(sender, contract))
    case Bank(Send(to, amount)) =>
      d.send(bytes) == Success(Proto.MsgSend(sender, to, ProtoCoins(amount)))
    case Staking(Delegate(validator, amount)) =>
      d.delegate(bytes) == Success(Proto.MsgDelegate(sender, validator, Some(ProtoCoin(amount))))
    case Staking(Undelegate(validator, amount)) =>
      d.undelegate(bytes) == Success(Proto.MsgUndelegate(sender, validator, Some(ProtoCoin(amount))))
    case Staking(Redelegate(src, dst, amount)) =>
      d.beginRedelegate(bytes) == Success(Proto.MsgBeginRedelegate(sender, src, dst, Some(ProtoCoin(amount))))
    case Stargate(url, value) =>
      !Proto.IsKnownTag(url) && bytes == value
  }

  /** Every canonical message that has a proto form converts back to itself,
      whoever the proto names as sender: `contract` lands in `contract_addr`,
      `code_id` in `new_code_id`, and every coin keeps its denom and amount. */
  lemma {:induction false} DispatchRoundTrip(msg: Cosmos.CosmosMsg, sender: string, d: Proto.Decoders, bytes: Bytes)
    requires DecodesAs(d, bytes, sender, msg)
    ensures ConvertAny(Proto.Any(TypeUrl(msg), bytes), d) == Ok(msg)
  {
    match msg
    case Wasm(Execute(_, _, funds)) => ConvertCoinsRoundTrip(funds);
    case Wasm(Instantiate(_, _, _, funds, _)) => ConvertCoinsRoundTrip(funds);
    case Bank(Send(_, amount)) => ConvertCoinsRoundTrip(amount);
    case Staking(Delegate(_, amount)) => DecimalRoundTrip(amount.amount);
    case Staking(Undelegate(_, amount)) => DecimalRoundTrip(amount.amount);
    case Staking(Redelegate(_, _, amount)) => DecimalRoundTrip(amount.amount);
    case _ =>
  }
}
