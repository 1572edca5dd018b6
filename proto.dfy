/** The protobuf side of the runner: the tagged `Any` envelope, the decoded
    shapes of the nine message schemas the runner recognises, their type
    URLs, and the decoders of the protobuf library as a record of functions. */
module Proto {
  import opened Basics

  datatype Any = Any(typeUrl: string, value: Bytes)

  /** `cosmos.base.v1beta1.Coin`: the amount travels as decimal text. */
  datatype Coin = Coin(denom: string, amount: string)

  /** The value `unwrap_or_default` supplies for a missing coin. */
  const DEFAULT_COIN := Coin("", "")

  datatype MsgExecuteContract = MsgExecuteContract(sender: string, contract: string, msg: Bytes, funds: seq<Coin>)
  datatype MsgInstantiateContract = MsgInstantiateContract(sender: string, admin: string, codeId: u64, contractLabel: string, msg: Bytes, funds: seq<Coin>)
  datatype MsgMigrateContract = MsgMigrateContract(sender: string, contract: string, codeId: u64, msg: Bytes)
  datatype MsgUpdateAdmin = MsgUpdateAdmin(sender: string, newAdmin: string, contract: string)
  datatype MsgClearAdmin = MsgClearAdmin(sender: string, contract: string)
  datatype MsgSend = MsgSend(fromAddress: string, toAddress: string, amount: seq<Coin>)
  datatype MsgDelegate = MsgDelegate(delegatorAddress: string, validatorAddress: string, amount: Option<Coin>)
  datatype MsgUndelegate = MsgUndelegate(delegatorAddress: string, validatorAddress: string, amount: Option<Coin>)
  datatype MsgBeginRedelegate = MsgBeginRedelegate(delegatorAddress: string, validatorSrcAddress: string, validatorDstAddress: string, amount: Option<Coin>)

  const EXECUTE_CONTRACT_URL := "/cosmwasm.wasm.v1.MsgExecuteContract"
  const INSTANTIATE_CONTRACT_URL := "/cosmwasm.wasm.v1.MsgInstantiateContract"
  const MIGRATE_CONTRACT_URL := "/cosmwasm.wasm.v1.MsgMigrateContract"
  const UPDATE_ADMIN_URL := "/cosmwasm.wasm.v1.MsgUpdateAdmin"
  const CLEAR_ADMIN_URL := "/cosmwasm.wasm.v1.MsgClearAdmin"
  const SEND_URL := "/cosmos.bank.v1beta1.MsgSend"
  const DELEGATE_URL := "/cosmos.staking.v1beta1.MsgDelegate"
  const UNDELEGATE_URL := "/cosmos.staking.v1beta1.MsgUndelegate"
  const BEGIN_REDELEGATE_URL := "/cosmos.staking.v1beta1.MsgBeginRedelegate"

  predicate IsKnownTag(url: string) {
    || url == EXECUTE_CONTRACT_URL
    || url == INSTANTIATE_CONTRACT_URL
    || url == MIGRATE_CONTRACT_URL
    || url == UPDATE_ADMIN_URL
    || url == CLEAR_ADMIN_URL
    || url == SEND_URL
    || url == DELEGATE_URL
    || url == UNDELEGATE_URL
    || url == BEGIN_REDELEGATE_URL
  }

  /** `prost::Message::decode` for each schema; a failure carries the
      library's description of what was malformed. */
  datatype Decoders = Decoders(
    execute: Bytes -> Result<MsgExecuteContract, string>,
    instantiate: Bytes -> Result<MsgInstantiateContract, string>,
    migrate: Bytes -> Result<MsgMigrateContract, string>,
    updateAdmin: Bytes -> Result<MsgUpdateAdmin, string>,
    clearAdmin: Bytes -> Result<MsgClearAdmin, string>,
    send: Bytes -> Result<MsgSend, string>,
    delegate: Bytes -> Result<MsgDelegate, string>,
    undelegate: Bytes -> Result<MsgUndelegate, string>,
    beginRedelegate: Bytes -> Result<MsgBeginRedelegate, string>)
}
