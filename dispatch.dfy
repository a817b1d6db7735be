/** The outcomes of `request_koin` (faucet.py lines 61-89) as a pure function of
    the configuration, the faucet's state (throttle store and custodial balance),
    the parsed request body and the clock reading. */
module Dispatch {
  import opened Throttle
  import opened Payout

  datatype Option<T> = None | Some(value: T)

  /** The loaded configuration: `rate_seconds`, `k` as kNum / kDen, `koin_payout`. */
  datatype Config = Config(rateSeconds: nat, kNum: nat, kDen: nat, koinPayout: int)
  {
    predicate Valid() { kDen > 0 }
  }

  /** The JSON body of a POST: absent, some JSON value that is not an object
      (indexing it raises TypeError), or an object with string-valued fields. */
  datatype Body = NoBody | NotAnObject | Object(fields: map<string, string>)

  /** A well-formed request: the requester identifier and the destination address. */
  datatype Request = Request(id: string, address: string)

  /** The three answers: 400 "Input error.", 406 with the wait, 202 with the amount. */
  datatype Response = InputError | Throttled(retryAfter: int) | Accepted(amount: int, address: string)

  datatype State = State(db: Store, balance: int)

  datatype Outcome = Outcome(response: Response, after: State)

  function Status(r: Response): (code: int)
    ensures code == 400 <==> r.InputError?
    ensures code == 406 <==> r.Throttled?
    ensures code == 202 <==> r.Accepted?
  {
    match r
    case InputError => 400
    case Throttled(_) => 406
    case Accepted(_, _) => 202
  }

  /** Step 1, the input shape check: a request exists exactly when the body is an
      object carrying both `id` and `address`. */
  function ParseRequest(body: Body): (r: Option<Request>)
    ensures r.Some? <==> body.Object? && "id" in body.fields && "address" in body.fields
    ensures r.Some? ==> r.value.id == body.fields["id"] && r.value.address == body.fields["address"]
  {
    match body
    case Object(fields) =>
      if "id" in fields && "address" in fields then Some(Request(fields["id"], fields["address"])) else None
    case _ => None
  }

  /** One call of `request_koin`: shape check, then throttle check, then payout. */
  function Handle(cfg: Config, s: State, body: Body, now: int): (o: Outcome)
    requires cfg.Valid()
    // 400 exactly for a malformed body; nothing changes
    ensures o.response.InputError? <==> ParseRequest(body).None?
    // only an accepted request touches the store or the balance
    ensures !o.response.Accepted? ==> o.after == s
    ensures o.response.Throttled? ==>
              ParseRequest(body).Some? &&
              Decide(s.db, ParseRequest(body).value.id, now, cfg.rateSeconds) == Denied(o.response.retryAfter)
    ensures o.response.Accepted? <==>
              ParseRequest(body).Some? && Decide(s.db, ParseRequest(body).value.id, now, cfg.rateSeconds).Allowed?
    ensures o.response.Accepted? ==>
              var req := ParseRequest(body).value;
              && o.response.address == req.address
              && o.response.amount == PayoutAmount(s.balance, cfg.kNum, cfg.kDen, cfg.koinPayout)
              && o.after.db == s.db[req.id := now]
              && o.after.balance == s.balance - o.response.amount
  {
    match ParseRequest(body)
    case None => Outcome(InputError, s)
    case Some(req) =>
      match Decide(s.db, req.id, now, cfg.rateSeconds)
      case Denied(wait) => Outcome(Throttled(wait), s)
      case Allowed =>
        var amount := PayoutAmount(s.balance, cfg.kNum, cfg.kDen, cfg.koinPayout);
        Outcome(Accepted(amount, req.address), State(Record(s.db, req.id, now, cfg.rateSeconds), s.balance - amount))
  }

  /** An accepted payout never exceeds the cap and, for k <= 1, leaves a
      non-negative balance non-negative. */
  lemma AcceptedPayoutBounds(cfg: Config, s: State, body: Body, now: int)
    requires cfg.Valid() && cfg.kNum <= cfg.kDen && s.balance >= 0
    ensures var o := Handle(cfg, s, body, now);
            && 0 <= o.after.balance <= s.balance - (if cfg.koinPayout >= 0 then 0 else cfg.koinPayout)
            && (o.response.Accepted? ==> o.response.amount <= cfg.koinPayout && o.response.amount <= s.balance)
  {
  }

  /** A request repeated inside the window of an accepted one is answered 406 with a
      positive wait, and pays nothing. */
  lemma RepeatInWindowThrottled(cfg: Config, s: State, body: Body, now: int, later: int)
    requires cfg.Valid()
    requires Handle(cfg, s, body, now).response.Accepted?
    requires now <= later < now + cfg.rateSeconds * MicrosPerSecond
    ensures var s' := Handle(cfg, s, body, now).after;
            var o := Handle(cfg, s', body, later);
            o.response.Throttled? && o.response.retryAfter >= 1 && o.after == s'
  {
  }

  /** A request for an identifier the store has never seen is paid. */
  lemma NewIdentifierPaid(cfg: Config, s: State, body: Body, now: int)
    requires cfg.Valid()
    requires ParseRequest(body).Some? && ParseRequest(body).value.id !in s.db
    ensures var o := Handle(cfg, s, body, now);
            Status(o.response) == 202 && o.after.db == s.db[ParseRequest(body).value.id := now]
  {
  }

  /** A clock reading and a body: one inbound request. */
  datatype Call = Call(body: Body, now: int)

  datatype Trace = Trace(responses: seq<Response>, final: State)

  /** Serialised handling of a sequence of requests. */
  function Serve(cfg: Config, s: State, calls: seq<Call>): (t: Trace)
    requires cfg.Valid()
    ensures |t.responses| == |calls|
    decreases |calls|
  {
    if calls == [] then Trace([], s)
    else
      var o := Handle(cfg, s, calls[0].body, calls[0].now);
      var rest := Serve(cfg, o.after, calls[1..]);
      Trace([o.response] + rest.responses, rest.final)
  }

  /** The total paid out by a sequence of responses. */
  function Paid(rs: seq<Response>): int
  {
    if rs == [] then 0 else (if rs[0].Accepted? then rs[0].amount else 0) + Paid(rs[1..])
  }

  function CountAccepted(rs: seq<Response>): nat
  {
    if rs == [] then 0 else (if rs[0].Accepted? then 1 else 0) + CountAccepted(rs[1..])
  }

  /** The custodial balance falls by exactly what was paid out, request after request. */
  lemma {:induction false} BalanceAccountsForPayouts(cfg: Config, s: State, calls: seq<Call>)
    requires cfg.Valid()
    ensures Serve(cfg, s, calls).final.balance == s.balance - Paid(Serve(cfg, s, calls).responses)
    decreases |calls|
  {
    if calls != [] {
      var o := Handle(cfg, s, calls[0].body, calls[0].now);
      BalanceAccountsForPayouts(cfg, o.after, calls[1..]);
      assert Serve(cfg, s, calls).responses[1..] == Serve(cfg, o.after, calls[1..]).responses;
    }
  }

  /** With k <= 1 and a non-negative cap the balance never rises and never goes
      below zero, however many requests are served. */
  lemma {:induction false} BalanceNeverNegative(cfg: Config, s: State, calls: seq<Call>)
    requires cfg.Valid() && cfg.kNum <= cfg.kDen && cfg.koinPayout >= 0 && s.balance >= 0
    ensures 0 <= Serve(cfg, s, calls).final.balance <= s.balance
    decreases |calls|
  {
    if calls != [] {
      var o := Handle(cfg, s, calls[0].body, calls[0].now);
      AcceptedPayoutBounds(cfg, s, calls[0].body, calls[0].now);
      BalanceNeverNegative(cfg, o.after, calls[1..]);
    }
  }

  /** Every request carries a well-formed body for identifier `id`. */
  predicate AllFor(calls: seq<Call>, id: string)
  {
    forall i :: 0 <= i < |calls| ==> ParseRequest(calls[i].body).Some? && ParseRequest(calls[i].body).value.id == id
  }

  function Times(calls: seq<Call>): (ts: seq<int>)
    ensures |ts| == |calls|
    ensures forall i :: 0 <= i < |calls| ==> ts[i] == calls[i].now
  {
    if calls == [] then [] else [calls[0].now] + Times(calls[1..])
  }

  /** Requests for one identifier are accepted exactly where the throttle alone,
      replayed on the same clock readings, lets them through. */
  lemma {:induction false} ServeFollowsThrottle(cfg: Config, s: State, calls: seq<Call>, id: string)
    requires cfg.Valid() && AllFor(calls, id)
    ensures CountAccepted(Serve(cfg, s, calls).responses) == CountAllowed(Replay(s.db, id, Times(calls), cfg.rateSeconds))
    decreases |calls|
  {
    if calls != [] {
      var o := Handle(cfg, s, calls[0].body, calls[0].now);
      assert o.after.db == Record(s.db, id, calls[0].now, cfg.rateSeconds);
      assert AllFor(calls[1..], id) by {
        forall i | 0 <= i < |calls[1..]|
          ensures ParseRequest(calls[1..][i].body).Some? && ParseRequest(calls[1..][i].body).value.id == id
        {
          assert calls[1..][i] == calls[i + 1];
        }
      }
      ServeFollowsThrottle(cfg, o.after, calls[1..], id);
      assert Times(calls)[1..] == Times(calls[1..]);
      assert Serve(cfg, s, calls).responses[1..] == Serve(cfg, o.after, calls[1..]).responses;
      assert Replay(s.db, id, Times(calls), cfg.rateSeconds)[1..] ==
             Replay(o.after.db, id, Times(calls[1..]), cfg.rateSeconds);
    }
  }

  /** Serialised requests for one identifier, all inside one throttle window, are
      paid at most once: no double payout. */
  lemma OnePayoutPerWindow(cfg: Config, s: State, calls: seq<Call>, id: string, lo: int)
    requires cfg.Valid() && AllFor(calls, id)
    requires forall i :: 0 <= i < |calls| ==> lo <= calls[i].now < lo + cfg.rateSeconds * MicrosPerSecond
    ensures CountAccepted(Serve(cfg, s, calls).responses) <= 1
  {
    ServeFollowsThrottle(cfg, s, calls, id);
    AtMostOneAllowedPerWindow(s.db, id, Times(calls), cfg.rateSeconds, lo);
  }

  /** Request with body `{}`: 400, state untouched. */
  lemma EmptyObjectIsInputError(cfg: Config, s: State, now: int)
    requires cfg.Valid()
    ensures Handle(cfg, s, Object(map[]), now) == Outcome(InputError, s)
  {
  }
}
