/** The stateful side of faucet.py: the `Blockchain` stub whose `balance` field
    `pay_address` decrements, and the application object whose throttle database
    `check_identifier` rewrites in place. `CheckIdentifier`, `PayAddress` and
    `RequestKoin` are proved against the pure functions of modules Throttle,
    Payout and Dispatch; the two store accessors state their map update or lookup. */
module FaucetApp {
  import opened Throttle
  import opened Payout
  import opened Dispatch

  /** 10000000000 minor units, i.e. 1000 KOIN at seven decimals. */
  const StubBalance: int := 10000000000

  /** The custodial wallet as the source has it: an in-memory balance. */
  class Blockchain {
    var balance: int

    constructor ()
      ensures balance == StubBalance
    {
      balance := 0;
      new;
      UpdateBalance();
    }

    /** Stands in for a chain query: the balance is set to the fixed stub value. */
    method UpdateBalance()
      modifies this
      ensures balance == StubBalance
    {
      balance := StubBalance;
    }

    /** Submits a transfer; the stub does nothing and cannot fail. A real chain
        client may change the wallet, so the frame allows it; the stub does not. */
    method Transfer(address: string, amount: int)
      modifies this
      ensures unchanged(this)
    {
    }
  }

  /** The bottle application: its configuration, its throttle database and its chain. */
  class App {
    const config: Config
    var db: Store
    const chain: Blockchain

    /** The configured rate k = kNum / kDen has a positive denominator. */
    predicate Valid()
    {
      config.Valid()
    }

    /** `main`: the chain is created afresh, the database opened with what it holds. */
    constructor (config: Config, stored: Store)
      requires config.Valid()
      ensures Valid() && this.config == config && db == stored
      ensures fresh(chain) && chain.balance == StubBalance
    {
      this.config := config;
      db := stored;
      chain := new Blockchain();
    }

    /** Stamps the identifier with the current clock reading. */
    method UpdateTimestamp(id: string, now: int)
      modifies this`db
      ensures db == old(db)[id := now]
    {
      db := db[id := now];
    }

    /** Reads back the identifier's stamp; the source raises KeyError for an unknown
        identifier, and its one caller asks only about stored ones. */
    method FetchTimestamp(id: string) returns (stamp: int)
      requires id in db
      ensures stamp == db[id]
    {
      stamp := db[id];
    }

    /** Lets the request through and restamps the identifier when it is new or its
        window has run out; otherwise leaves the store alone and says how long to wait. */
    method CheckIdentifier(id: string, now: int) returns (verdict: Verdict)
      requires Valid()
      modifies this`db
      ensures verdict == Decide(old(db), id, now, config.rateSeconds)
      ensures db == Record(old(db), id, now, config.rateSeconds)
    {
      if id !in db {
        UpdateTimestamp(id, now);
        return Allowed;
      }
      var idTime := FetchTimestamp(id);
      var elapsed := now - idTime;
      if elapsed < config.rateSeconds * MicrosPerSecond {
        return Denied(RetryAfter(config.rateSeconds, elapsed));
      }
      UpdateTimestamp(id, now);
      return Allowed;
    }

    /** Computes the payout from the current balance, transfers it and books it. */
    method PayAddress(address: string) returns (amount: int)
      requires Valid()
      modifies chain
      ensures amount == PayoutAmount(old(chain.balance), config.kNum, config.kDen, config.koinPayout)
      ensures chain.balance == old(chain.balance) - amount
      ensures config.kNum <= config.kDen && old(chain.balance) >= 0 ==> 0 <= chain.balance
    {
      amount := PayoutAmount(chain.balance, config.kNum, config.kDen, config.koinPayout);
      chain.Transfer(address, amount);
      chain.balance := chain.balance - amount;
    }

    /** `POST /request_koin`: the response and the new store and balance are those
        the specification `Handle` gives for the old ones. */
    method RequestKoin(body: Body, now: int) returns (response: Response)
      requires Valid()
      modifies this`db, chain
      ensures Outcome(response, State(db, chain.balance)) == Handle(config, State(old(db), old(chain.balance)), body, now)
    {
      var request := ParseRequest(body);
      if request.None? {
        return InputError;
      }
      var verdict := CheckIdentifier(request.value.id, now);
      if verdict.Denied? {
        return Throttled(verdict.retryAfter);
      }
      var amount := PayAddress(request.value.address);
      return Accepted(amount, request.value.address);
    }
  }

  /** On a faucet with an empty store: a request from a new id "user-1" is paid
      (202), the same request repeated at once gets 406 and leaves the balance
      alone, and the body `{}` gets 400. */
  method FreshFaucetScenario(config: Config, address: string, now: int)
    requires config.Valid() && config.rateSeconds > 0
  {
    var app := new App(config, map[]);
    var body := Object(map["id" := "user-1", "address" := address]);
    var first := app.RequestKoin(body, now);
    assert Status(first) == 202 && "user-1" in app.db;
    var balance := app.chain.balance;
    var second := app.RequestKoin(body, now);
    assert second.Throttled? && second.retryAfter >= 1;
    assert app.chain.balance == balance;
    var third := app.RequestKoin(Object(map[]), now);
    assert third == InputError;
  }
}
