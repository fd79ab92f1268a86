/**
 * The transactions endpoint. It refuses a non-positive amount (and, for a
 * transfer, a source equal to the destination) before the service is called,
 * then answers Ok exactly when the service reports success.
 */
module Controller {
  import opened Wrappers
  import opened Entries
  import opened Fees
  import opened Accounts
  import opened Service

  datatype Request =
    | DepositRequest(accountId: int, amount: int)
    | WithdrawRequest(accountId: int, amount: int)
    | TransferRequest(sourceId: int, destinationId: int, amount: int)

  /** Why a request was answered with BadRequest; one per message the endpoint sends. */
  datatype Rejection = NonPositiveAmount | SameAccount | ServiceRefused

  datatype Outcome = Ok | BadRequest(reason: Rejection)

  /** The checks made before the service is called; `None` means the request goes through. */
  function Gate(req: Request): (r: Option<Rejection>)
    ensures r == None <==> req.amount > 0 && !(req.TransferRequest? && req.sourceId == req.destinationId)
    ensures req.amount <= 0 ==> r == Some(NonPositiveAmount)
    ensures r == Some(SameAccount) ==> req.TransferRequest?
    ensures req.amount > 0 && req.TransferRequest? && req.sourceId == req.destinationId ==> r == Some(SameAccount)
  {
    if req.amount <= 0 then Some(NonPositiveAmount)
    else if req.TransferRequest? && req.sourceId == req.destinationId then Some(SameAccount)
    else None
  }

  /** The answer, given what the service returned when it was called. */
  function Respond(req: Request, succeeded: bool): Outcome
  {
    match Gate(req)
    case Some(reason) => BadRequest(reason)
    case None => if succeeded then Ok else BadRequest(ServiceRefused)
  }

  /** Ok exactly when the gate lets the request through and the service succeeds. */
  lemma RespondOkIff(req: Request, succeeded: bool)
    ensures Respond(req, succeeded) == Ok
        <==> req.amount > 0 && succeeded && !(req.TransferRequest? && req.sourceId == req.destinationId)
  {
  }

  /** A request the gate refuses gets the same answer whatever the service would have said. */
  lemma RefusalIgnoresService(req: Request, a: bool, b: bool)
    requires Gate(req) != None
    ensures Respond(req, a) == Respond(req, b) == BadRequest(Gate(req).value)
  {
  }

  /**
   * What the service returns for a request, read off its state before the call.
   * This restates the `ok` clauses of `Ledger.Deposit`, `Ledger.Withdraw` and
   * `Ledger.Transfer` as one predicate; the ensures of `Handle`, proved from those
   * methods, is what ties the two together.
   */
  predicate Accepted(holders: map<int, string>, log: seq<Entry>, req: Request)
  {
    match req
    case DepositRequest(accountId, _) => accountId in holders
    case WithdrawRequest(accountId, amount) =>
      accountId in holders && CanWithdraw(Balance(log, accountId), amount)
    case TransferRequest(sourceId, destinationId, amount) =>
      sourceId in holders && destinationId in holders && CanTransfer(Balance(log, sourceId), amount)
  }

  /** The batch the service posts for an accepted request, numbered from `firstId`. */
  function Posted(firstId: nat, holders: map<int, string>, req: Request): seq<Entry>
    requires req.TransferRequest? ==> req.sourceId in holders && req.destinationId in holders
  {
    match req
    case DepositRequest(accountId, amount) => DepositBatch(firstId, accountId, amount)
    case WithdrawRequest(accountId, amount) => WithdrawBatch(firstId, accountId, amount)
    case TransferRequest(sourceId, destinationId, amount) =>
      TransferBatch(firstId, sourceId, holders[sourceId], destinationId, holders[destinationId], amount)
  }

  /** The change an accepted request makes to the balance of account `id`. */
  function Delta(req: Request, id: int): int
  {
    match req
    case DepositRequest(accountId, amount) =>
      if id == accountId then amount - DepositFee(amount) else 0
    case WithdrawRequest(accountId, amount) =>
      if id == accountId then -(amount + WithdrawFixed) else 0
    case TransferRequest(sourceId, destinationId, amount) =>
      (if id == sourceId then -(amount + TransferFixed) else 0) + (if id == destinationId then amount else 0)
  }

  /** The posted batch changes each balance by exactly `Delta`. */
  lemma PostedEffect(log: seq<Entry>, firstId: nat, holders: map<int, string>, req: Request, id: int)
    requires req.TransferRequest? ==> req.sourceId in holders && req.destinationId in holders
    ensures Balance(log + Posted(firstId, holders, req), id) == Balance(log, id) + Delta(req, id)
  {
    match req
    case DepositRequest(accountId, amount) =>
      DepositEffect(log, firstId, accountId, amount, id);
    case WithdrawRequest(accountId, amount) =>
      WithdrawEffect(log, firstId, accountId, amount, id);
    case TransferRequest(sourceId, destinationId, amount) =>
      TransferEffect(log, firstId, sourceId, holders[sourceId], destinationId, holders[destinationId], amount, id);
  }

  /** The endpoint and the service together. */
  method Handle(ledger: Ledger, req: Request) returns (o: Outcome)
    requires ledger.Valid()
    modifies ledger
    ensures ledger.Valid()
    ensures o == Respond(req, Accepted(old(ledger.holders), old(ledger.log), req))
    ensures ledger.holders == old(ledger.holders)
    ensures Gate(req) != None ==> ledger.log == old(ledger.log) && ledger.nextId == old(ledger.nextId)
    ensures o != Ok ==> ledger.log == old(ledger.log)
    ensures o == Ok ==> ledger.log == old(ledger.log) + Posted(old(ledger.nextId), old(ledger.holders), req)
    ensures forall id :: Balance(ledger.log, id) == Balance(old(ledger.log), id) + (if o == Ok then Delta(req, id) else 0)
  {
    if req.amount <= 0 {
      return BadRequest(NonPositiveAmount);
    }
    var success: bool;
    match req {
      case DepositRequest(accountId, amount) =>
        success := ledger.Deposit(accountId, amount);
      case WithdrawRequest(accountId, amount) =>
        success := ledger.Withdraw(accountId, amount);
      case TransferRequest(sourceId, destinationId, amount) =>
        if sourceId == destinationId {
          return BadRequest(SameAccount);
        }
        success := ledger.Transfer(sourceId, destinationId, amount);
    }
    if !success {
      return BadRequest(ServiceRefused);
    }
    return Ok;
  }

  /** From a balance of 5000, the endpoint refuses a withdrawal of 4601, then accepts 4600 and empties the account. */
  method WithdrawScenario(ledger: Ledger, accountId: int) returns (first: Outcome, second: Outcome)
    requires ledger.Valid() && accountId in ledger.holders && Balance(ledger.log, accountId) == 5000
    modifies ledger
    ensures ledger.Valid()
    ensures first == BadRequest(ServiceRefused) && second == Ok
    ensures Balance(ledger.log, accountId) == 0
  {
    first := Handle(ledger, WithdrawRequest(accountId, 4601));
    second := Handle(ledger, WithdrawRequest(accountId, 4600));
  }

  /** From a source balance of 500, the endpoint refuses a transfer of 401, then accepts 400. */
  method TransferScenario(ledger: Ledger, sourceId: int, destinationId: int) returns (first: Outcome, second: Outcome)
    requires ledger.Valid() && sourceId in ledger.holders && destinationId in ledger.holders
    requires sourceId != destinationId && Balance(ledger.log, sourceId) == 500
    modifies ledger
    ensures ledger.Valid()
    ensures first == BadRequest(ServiceRefused) && second == Ok
    ensures Balance(ledger.log, sourceId) == 0
    ensures Balance(ledger.log, destinationId) == old(Balance(ledger.log, destinationId)) + 400
  {
    first := Handle(ledger, TransferRequest(sourceId, destinationId, 401));
    second := Handle(ledger, TransferRequest(sourceId, destinationId, 400));
  }

  // ---------------------------------------------------------------------------
  // The endpoint composed with the service

  lemma DepositEndToEnd(holders: map<int, string>, log: seq<Entry>, accountId: int, amount: int)
    ensures var req := DepositRequest(accountId, amount);
            Respond(req, Accepted(holders, log, req)) == Ok <==> amount > 0 && accountId in holders
  {
  }

  lemma WithdrawEndToEnd(holders: map<int, string>, log: seq<Entry>, accountId: int, amount: int)
    ensures var req := WithdrawRequest(accountId, amount);
            Respond(req, Accepted(holders, log, req)) == Ok
            <==> amount > 0 && accountId in holders && Balance(log, accountId) >= amount + WithdrawFixed
  {
  }

  lemma TransferEndToEnd(holders: map<int, string>, log: seq<Entry>, sourceId: int, destinationId: int, amount: int)
    ensures var req := TransferRequest(sourceId, destinationId, amount);
            Respond(req, Accepted(holders, log, req)) == Ok
            <==> amount > 0 && sourceId != destinationId && sourceId in holders && destinationId in holders
                 && Balance(log, sourceId) >= amount + TransferFixed
  {
  }

  /** From a balance of 5000, a withdrawal of 4601 is refused and one of 4600 empties the account. */
  lemma WithdrawFrom5000(holders: map<int, string>, log: seq<Entry>, accountId: int, firstId: nat)
    requires accountId in holders && Balance(log, accountId) == 5000
    ensures var req := WithdrawRequest(accountId, 4601);
            Respond(req, Accepted(holders, log, req)) == BadRequest(ServiceRefused)
    ensures var req := WithdrawRequest(accountId, 4600);
            Respond(req, Accepted(holders, log, req)) == Ok
    ensures Balance(log + WithdrawBatch(firstId, accountId, 4600), accountId) == 0
  {
    WithdrawEffect(log, firstId, accountId, 4600, accountId);
  }

  /** From a source balance of 500, a transfer of 401 is refused and one of 400 moves it all but the fee. */
  lemma TransferFrom500(holders: map<int, string>, log: seq<Entry>, sourceId: int, destinationId: int, firstId: nat)
    requires sourceId in holders && destinationId in holders && sourceId != destinationId
    requires Balance(log, sourceId) == 500
    ensures var req := TransferRequest(sourceId, destinationId, 401);
            Respond(req, Accepted(holders, log, req)) == BadRequest(ServiceRefused)
    ensures var req := TransferRequest(sourceId, destinationId, 400);
            Respond(req, Accepted(holders, log, req)) == Ok
    ensures var after := log + TransferBatch(firstId, sourceId, holders[sourceId], destinationId, holders[destinationId], 400);
            Balance(after, sourceId) == 0 && Balance(after, destinationId) == Balance(log, destinationId) + 400
  {
    var batch := TransferBatch(firstId, sourceId, holders[sourceId], destinationId, holders[destinationId], 400);
    TransferEffect(log, firstId, sourceId, holders[sourceId], destinationId, holders[destinationId], 400, sourceId);
    TransferEffect(log, firstId, sourceId, holders[sourceId], destinationId, holders[destinationId], 400, destinationId);
  }

  /** The requests the endpoint refuses on their face: a zero amount, or a transfer to the same account. */
  lemma GateExamples(holders: map<int, string>, log: seq<Entry>)
    ensures Respond(DepositRequest(1, 0), Accepted(holders, log, DepositRequest(1, 0))) == BadRequest(NonPositiveAmount)
    ensures Respond(WithdrawRequest(1, 0), Accepted(holders, log, WithdrawRequest(1, 0))) == BadRequest(NonPositiveAmount)
    ensures Respond(TransferRequest(1, 2, 0), Accepted(holders, log, TransferRequest(1, 2, 0))) == BadRequest(NonPositiveAmount)
    ensures Respond(TransferRequest(1, 1, 1000), Accepted(holders, log, TransferRequest(1, 1, 1000))) == BadRequest(SameAccount)
  {
  }
}
