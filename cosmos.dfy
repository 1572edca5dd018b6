/** The canonical message model of the simulator (`cosmwasm_std`): the
    messages it executes and the events it emits. */
module Cosmos {
  import opened Basics
  import opened Uint128

  datatype Coin = Coin(denom: string, amount: u128)

  datatype WasmMsg =
    | Execute(contractAddr: string, msg: Bytes, funds: seq<Coin>)
    | Instantiate(admin: Option<string>, codeId: u64, msg: Bytes, funds: seq<Coin>, contractLabel: string)
    | Migrate(contractAddr: string, newCodeId: u64, msg: Bytes)
    | UpdateAdmin(contractAddr: string, newAdmin: string)
    | ClearAdmin(contractAddr: string)

  datatype BankMsg = Send(toAddress: string, amount: seq<Coin>)

  datatype StakingMsg =
    | Delegate(validator: string, amount: Coin)
    | Undelegate(validator: string, amount: Coin)
    | Redelegate(srcValidator: string, dstValidator: string, amount: Coin)

  /** `Stargate` carries a message the simulator must interpret itself. */
  datatype CosmosMsg =
    | Bank(bank: BankMsg)
    | Staking(staking: StakingMsg)
    | Wasm(wasm: WasmMsg)
    | Stargate(typeUrl: string, value: Bytes)

  datatype Attribute = Attribute(key: string, value: string)

  datatype Event = Event(ty: string, attributes: seq<Attribute>)
}
