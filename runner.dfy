/** `MultiTestRunner`: the runner that owns a `cw_multi_test` simulator and
    adapts test-tube's calls to it. The simulator is modelled by the state
    the runner changes (bank balances, registered codes) and by an engine
    function standing for its message execution. */
module Runner {
  import opened Basics
  import opened Outcomes
  import Cosmos
  import Proto
  import Dispatch
  import Aggregate

  /** Native balances: address to denom to amount. */
  type Bank = map<string, map<string, nat>>

  function Holdings(bank: Bank, address: string): map<string, nat> {
    if address in bank then bank[address] else map[]
  }

  function Held(holdings: map<string, nat>, denom: string): nat {
    if denom in holdings then holdings[denom] else 0
  }

  function Balance(bank: Bank, address: string, denom: string): nat {
    Held(Holdings(bank, address), denom)
  }

  /** The total of `coins` in `denom`. */
  function AmountOf(coins: seq<Cosmos.Coin>, denom: string): nat {
    if |coins| == 0 then 0
    else (if coins[0].denom == denom then coins[0].amount else 0) + AmountOf(coins[1..], denom)
  }

  function Credit(holdings: map<string, nat>, coins: seq<Cosmos.Coin>): map<string, nat>
    decreases |coins|
  {
    if |coins| == 0 then holdings
    else Credit(holdings[coins[0].denom := Held(holdings, coins[0].denom) + coins[0].amount], coins[1..])
  }

  /** `BankSudo::Mint`: the privileged credit of `coins` to `to`. */
  function Mint(bank: Bank, to: string, coins: seq<Cosmos.Coin>): (minted: Bank)
    ensures minted.Keys == bank.Keys + {to}
    ensures forall address :: address != to ==> Holdings(minted, address) == Holdings(bank, address)
    ensures |coins| == 0 ==> Holdings(minted, to) == Holdings(bank, to)
  {
    bank[to := Credit(Holdings(bank, to), coins)]
  }

  lemma {:induction false} CreditHeld(holdings: map<string, nat>, coins: seq<Cosmos.Coin>, denom: string)
    ensures Held(Credit(holdings, coins), denom) == Held(holdings, denom) + AmountOf(coins, denom)
    decreases |coins|
  {
    if |coins| > 0 {
      CreditHeld(holdings[coins[0].denom := Held(holdings, coins[0].denom) + coins[0].amount], coins[1..], denom);
    }
  }

  /** Minting raises the recipient's balance in each denom by exactly the
      minted total of that denom and leaves every other account alone. */
  lemma MintBalance(bank: Bank, to: string, coins: seq<Cosmos.Coin>, address: string, denom: string)
    ensures Balance(Mint(bank, to, coins), address, denom)
      == Balance(bank, address, denom) + (if address == to then AmountOf(coins, denom) else 0)
  {
    if address == to {
      CreditHeld(Holdings(bank, to), coins, denom);
    }
  }

  /** The simulator's state: balances and, beyond them, whatever the
      contracts and modules keep (`W`). */
  datatype Ledger<W> = Ledger(bank: Bank, world: W)

  /** An in-memory contract implementation, by the name it is known under. */
  datatype ContractCode = ContractCode(name: string)

  /** `crate::traits::ContractType`. */
  datatype ContractType = MultiTestContract(code: ContractCode) | Artifact(artifact: string)

  /** `App::execute_multi` as a function of the registered codes, the ledger,
      the sender and the batch: the new ledger and one response per message,
      or the reason the batch was rejected. */
  type Engine<!W> = (seq<ContractCode>, Ledger<W>, string, seq<Cosmos.CosmosMsg>) -> Result<(Ledger<W>, seq<Aggregate.AppResponse>), string>

  /** `cw_multi_test::App` as far as the runner drives it. */
  class App<W> {
    var codes: seq<ContractCode>
    var ledger: Ledger<W>
    const engine: Engine<W>

    constructor (engine: Engine<W>, genesis: Ledger<W>)
      ensures this.engine == engine && codes == [] && ledger == genesis
    {
      this.engine := engine;
      codes := [];
      ledger := genesis;
    }

    /** What executing `msgs` from `sender` would do in the current state. */
    function Run(sender: string, msgs: seq<Cosmos.CosmosMsg>): Result<(Ledger<W>, seq<Aggregate.AppResponse>), string>
      reads this
    {
      engine(codes, ledger, sender, msgs)
    }

    /** A batch runs atomically: on success the ledger moves to the engine's
        new state, on rejection it is left exactly as it was. */
    method ExecuteMulti(sender: string, msgs: seq<Cosmos.CosmosMsg>) returns (r: Result<seq<Aggregate.AppResponse>, string>)
      modifies this
      ensures codes == old(codes)
      ensures old(Run(sender, msgs)).Success? ==>
        r == Success(old(Run(sender, msgs)).value.1) && ledger == old(Run(sender, msgs)).value.0
      ensures old(Run(sender, msgs)).Failure? ==>
        r == Failure(old(Run(sender, msgs)).error) && ledger == old(ledger)
    {
      match engine(codes, ledger, sender, msgs)
      case Success((next, responses)) =>
        ledger := next;
        r := Success(responses);
      case Failure(e) =>
        r := Failure(e);
    }

    /** `App::store_code`: registers the code under the next id, counting from 1. */
    method StoreCode(code: ContractCode) returns (id: nat)
      modifies this
      ensures codes == old(codes) + [code] && ledger == old(ledger)
      ensures id == |codes| && id == |old(codes)| + 1
    {
      codes := codes + [code];
      id := |codes|;
    }

    method SudoMint(to: string, coins: seq<Cosmos.Coin>)
      modifies this
      ensures codes == old(codes)
      ensures ledger == old(ledger).(bank := Mint(old(ledger.bank), to, coins))
    {
      ledger := ledger.(bank := Mint(ledger.bank, to, coins));
    }
  }

  /** `test_tube::SigningAccount`: the address is the one derived from the
      key under the runner's prefix. */
  datatype SigningAccount = SigningAccount(prefix: string, key: Bytes, address: string)

  /** What `execute_cosmos_msgs` answers for a given simulator outcome. A
      rejected batch is a `GenericError` carrying the simulator's reason and
      nothing is aggregated; an accepted one is aggregated from the
      simulator's responses and never becomes an error. */
  function ExecuteResult<W, S>(run: Result<(Ledger<W>, seq<Aggregate.AppResponse>), string>, codec: Aggregate.ResponseCodec<S>)
    : (r: Outcome<Aggregate.ExecuteResponse<S>>)
    ensures r.Err? <==> run.Failure?
    ensures run.Failure? ==> r == Err(GenericError(run.error))
    ensures run.Success? && r.Ok? ==>
      r.value.events == Aggregate.AllEvents(run.value.1) && r.value.rawData == codec.encode(r.value.data)
  {
    match run
    case Failure(e) => Err(GenericError(e))
    case Success((_, responses)) => Aggregate.Aggregate(responses, codec)
  }

  /** The ledger after the simulator's outcome: unchanged on rejection. */
  function LedgerAfter<W>(run: Result<(Ledger<W>, seq<Aggregate.AppResponse>), string>, before: Ledger<W>): Ledger<W> {
    match run
    case Failure(_) => before
    case Success((next, _)) => next
  }

  class MultiTestRunner<W> {
    const app: App<W>
    const addressPrefix: string

    /** `MultiTestRunner::new`, on a simulator in state `genesis`. */
    constructor (addressPrefix: string, engine: Engine<W>, genesis: Ledger<W>)
      ensures this.addressPrefix == addressPrefix && fresh(app)
      ensures app.engine == engine && app.codes == [] && app.ledger == genesis
    {
      this.addressPrefix := addressPrefix;
      app := new App(engine, genesis);
    }

    /** `init_account`: an account for the freshly generated `key` (with its
        derived `address`), minted `initialBalance` exactly when that list is
        non-empty. */
    method InitAccount(initialBalance: seq<Cosmos.Coin>, key: Bytes, address: string) returns (account: SigningAccount)
      modifies app
      ensures account == SigningAccount(addressPrefix, key, address)
      ensures app.codes == old(app.codes)
      ensures app.ledger == if |initialBalance| == 0 then old(app.ledger)
        else old(app.ledger).(bank := Mint(old(app.ledger.bank), address, initialBalance))
    {
      account := SigningAccount(addressPrefix, key, address);
      if |initialBalance| != 0 {
        app.SudoMint(address, initialBalance);
      }
    }

    /** `store_code`: an in-memory contract is registered and gets the next
        id; an artifact is refused and nothing is registered. */
    method StoreCode(code: ContractType, signer: SigningAccount) returns (r: Result<nat, string>)
      modifies app
      ensures app.ledger == old(app.ledger)
      ensures code.Artifact? ==> r == Failure("Artifact not supported for MultiTestRunner") && app.codes == old(app.codes)
      ensures code.MultiTestContract? ==>
        r == Success(|old(app.codes)| + 1) && app.codes == old(app.codes) + [code.code]
    {
      match code
      case MultiTestContract(contract) =>
        var id := app.StoreCode(contract);
        r := Success(id);
      case Artifact(_) =>
        r := Failure("Artifact not supported for MultiTestRunner");
    }

    /** `execute_cosmos_msgs`: submits the batch under the signer's address and
        aggregates the responses. A decode panic happens after the batch has
        been committed. */
    method ExecuteCosmosMsgs<S>(msgs: seq<Cosmos.CosmosMsg>, signer: SigningAccount, codec: Aggregate.ResponseCodec<S>)
      returns (r: Outcome<Aggregate.ExecuteResponse<S>>)
      modifies app
      ensures app.codes == old(app.codes)
      ensures r == ExecuteResult(old(app.Run(signer.address, msgs)), codec)
      ensures app.ledger == LedgerAfter(old(app.Run(signer.address, msgs)), old(app.ledger))
    {
      var responses := app.ExecuteMulti(signer.address, msgs);
      match responses
      case Failure(e) =>
        r := Err(GenericError(e));
      case Success(rs) =>
        r := Aggregate.Aggregate(rs, codec);
    }

    /** `execute_multiple_raw`: converts every tagged message, and only when
        all convert submits the batch; otherwise the first failure is the
        answer and the simulator is not touched. */
    method ExecuteMultipleRaw<S>(msgs: seq<Proto.Any>, signer: SigningAccount, decoders: Proto.Decoders, codec: Aggregate.ResponseCodec<S>)
      returns (r: Outcome<Aggregate.ExecuteResponse<S>>)
      modifies app
      ensures app.codes == old(app.codes)
      ensures !Dispatch.ConvertAll(msgs, decoders).Ok? ==>
        SameFailure(r, Dispatch.ConvertAll(msgs, decoders)) && app.ledger == old(app.ledger)
      ensures Dispatch.ConvertAll(msgs, decoders).Ok? ==>
        var batch := Dispatch.ConvertAll(msgs, decoders).value;
        r == ExecuteResult(old(app.Run(signer.address, batch)), codec)
        && app.ledger == LedgerAfter(old(app.Run(signer.address, batch)), old(app.ledger))
    {
      var converted := Dispatch.ConvertAll(msgs, decoders);
      if !converted.Ok? {
        r := converted.PropagateFailure();
      } else {
        r := ExecuteCosmosMsgs(converted.value, signer, codec);
      }
    }

    /** `execute_multiple`: encodes each message under its type URL, then
        proceeds as `execute_multiple_raw`; an encoding error stops first. */
    method ExecuteMultiple<M, S>(msgs: seq<(M, string)>, encode: M -> Result<Bytes, string>, signer: SigningAccount,
                                 decoders: Proto.Decoders, codec: Aggregate.ResponseCodec<S>)
      returns (r: Outcome<Aggregate.ExecuteResponse<S>>)
      modifies app
      ensures app.codes == old(app.codes)
      ensures !Dispatch.EncodeAll(msgs, encode).Ok? ==>
        r == Dispatch.EncodeAll(msgs, encode).PropagateFailure() && app.ledger == old(app.ledger)
      ensures Dispatch.EncodeAll(msgs, encode).Ok? && !Dispatch.ConvertAll(Dispatch.EncodeAll(msgs, encode).value, decoders).Ok? ==>
        SameFailure(r, Dispatch.ConvertAll(Dispatch.EncodeAll(msgs, encode).value, decoders)) && app.ledger == old(app.ledger)
      ensures Dispatch.EncodeAll(msgs, encode).Ok? && Dispatch.ConvertAll(Dispatch.EncodeAll(msgs, encode).value, decoders).Ok? ==>
        var batch := Dispatch.ConvertAll(Dispatch.EncodeAll(msgs, encode).value, decoders).value;
        r == ExecuteResult(old(app.Run(signer.address, batch)), codec)
        && app.ledger == LedgerAfter(old(app.Run(signer.address, batch)), old(app.ledger))
    {
      var encoded := Dispatch.EncodeAll(msgs, encode);
      if !encoded.Ok? {
        r := encoded.PropagateFailure();
      } else {
        r := ExecuteMultipleRaw(encoded.value, signer, decoders, codec);
      }
    }
  }

  // ----- the runner's own tests, as scenarios over any simulator -----

  /** `upload_contract`: on a fresh runner, after funding an account, the
      first stored contract gets id 1, and a second one gets id 2. */
  method UploadContract<W>(engine: Engine<W>, genesis: Ledger<W>, contract: ContractCode, key: Bytes, address: string)
    returns (first: Result<nat, string>, second: Result<nat, string>)
    ensures first == Success(1) && second == Success(2)
  {
    var runner := new MultiTestRunner("osmo", engine, genesis);
    var alice := runner.InitAccount([Cosmos.Coin("uosmo", 1000)], key, address);
    first := runner.StoreCode(MultiTestContract(contract), alice);
    second := runner.StoreCode(MultiTestContract(contract), alice);
  }

  /** `wasm_instantiate_contract`: uploading an artifact is refused, and that
      refusal is what the test's `unwrap` panics on. */
  method UploadArtifact<W>(engine: Engine<W>, genesis: Ledger<W>, path: string, key: Bytes, address: string)
    returns (codeId: Result<nat, string>)
    ensures codeId.Failure?
  {
    var runner := new MultiTestRunner("osmo", engine, genesis);
    var alice := runner.InitAccount([Cosmos.Coin("uosmo", 1000)], key, address);
    codeId := runner.StoreCode(Artifact(path), alice);
  }

  /** The funding of `bank_send` and `query_bank_through_test_tube_bank_module`:
      a new account funded with 1000 uatom holds exactly 1000 uatom, and an
      account created with no balance leaves the bank untouched. */
  method FundAccounts<W>(engine: Engine<W>, genesis: Ledger<W>, aliceKey: Bytes, alice: string, bobKey: Bytes, bob: string)
    returns (aliceBalance: nat, bank: Bank)
    requires alice !in genesis.bank
    ensures aliceBalance == 1000
    ensures bank == Mint(genesis.bank, alice, [Cosmos.Coin("uatom", 1000)])
  {
    var runner := new MultiTestRunner("osmo", engine, genesis);
    var a := runner.InitAccount([Cosmos.Coin("uatom", 1000)], aliceKey, alice);
    var b := runner.InitAccount([], bobKey, bob);
    MintBalance(genesis.bank, alice, [Cosmos.Coin("uatom", 1000)], alice, "uatom");
    aliceBalance := Balance(runner.app.ledger.bank, alice, "uatom");
    bank := runner.app.ledger.bank;
  }
}
