/** The `POST` and `GET` handlers of app/api/tips/route.ts. The request
    body's string fields are optional strings (absent or `null` is `None`);
    `amount` may arrive as a JSON number or a string. `parseFloat` is an
    argument, and so is the server clock reading `now`. */
module TipsRoute {
  import opened Common
  import opened Ledger
  import Bitquery
  import opened Database

  const MissingFields: string := "Missing required fields"
  const VerificationFailed: string := "Transaction verification failed"
  const FailedToRecord: string := "Failed to record tip"
  const AddressRequired: string := "Address parameter is required"
  const FailedToFetch: string := "Failed to fetch tips"

  /** The `amount` field of the body. */
  datatype Amount = NoAmount | NumberAmount(n: real) | TextAmount(s: string)

  /** JavaScript truthiness: a number is falsy when it is zero, a string
      when it is empty. */
  predicate AmountTruthy(a: Amount) {
    match a
    case NoAmount => false
    case NumberAmount(n) => n != 0.0
    case TextAmount(s) => s != ""
  }

  /** `parseFloat(amount)`: a number is returned as it is. */
  function ParseAmount(a: Amount, parseFloat: string -> real): real
    requires a != NoAmount
  {
    match a
    case NumberAmount(n) => n
    case TextAmount(s) => parseFloat(s)
  }

  datatype TipBody = TipBody(
    senderAddress: Option<string>,
    receiverAddress: Option<string>,
    amount: Amount,
    currency: Option<string>,
    message: Option<string>,
    transactionHash: Option<string>)

  /** The check at the top of `POST`: every field but `message` is truthy. */
  predicate HasRequiredFields(b: TipBody) {
    && Truthy(b.senderAddress) && Truthy(b.receiverAddress) && AmountTruthy(b.amount)
    && Truthy(b.currency) && Truthy(b.transactionHash)
  }

  /** Verification stops the request only when it answers, and the answer
      is `null` or a transaction whose `success` is false; a thrown error
      lets the tip through. */
  predicate Blocks(v: Result<Option<Bitquery.ChainTx>, Bitquery.ChainError>) {
    v.Ok? && (v.value.None? || !v.value.value.success)
  }

  /** The row `POST` asks the store to insert. */
  function Submitted(b: TipBody, parseFloat: string -> real, now: int): (t: TipInput)
    requires HasRequiredFields(b)
    ensures t.senderAddress == b.senderAddress.value && t.receiverAddress == b.receiverAddress.value
    ensures t.currency == b.currency.value && t.transactionHash == b.transactionHash.value
    ensures t.message == b.message && t.timestamp == now
    ensures b.amount.NumberAmount? ==> t.amount == b.amount.n
    ensures b.amount.TextAmount? ==> t.amount == parseFloat(b.amount.s)
  {
    TipInput(b.senderAddress.value, b.receiverAddress.value, ParseAmount(b.amount, parseFloat),
             b.currency.value, b.message, now, b.transactionHash.value)
  }

  /** The body passes validation and verification does not block it. */
  predicate Admitted(b: TipBody, chain: string -> Bitquery.Fetched<Bitquery.ChainTx>) {
    HasRequiredFields(b) && !Blocks(Bitquery.VerifyTransaction(b.transactionHash.value, chain))
  }

  /** `POST /api/tips`. `body` is `None` when `request.json()` fails. Exactly
      one row is inserted, and only when the body is admitted and the store
      accepts it; every other outcome leaves the tables as they were. */
  method Post(db: Tables, body: Option<TipBody>, chain: string -> Bitquery.Fetched<Bitquery.ChainTx>,
              parseFloat: string -> real, now: int, link: Link)
    returns (reply: Reply<Tip>)
    requires db.Valid()
    modifies db
    ensures db.Valid()
    ensures db.users == old(db.users) && db.profiles == old(db.profiles)
    ensures body.None? ==> reply == Fail(500, FailedToRecord)
    ensures body.Some? && !HasRequiredFields(body.value) ==> reply == Fail(400, MissingFields)
    ensures body.Some? && HasRequiredFields(body.value) && !Admitted(body.value, chain) ==>
      reply == Fail(400, VerificationFailed)
    ensures body.Some? && Admitted(body.value, chain) && link.Down? ==> reply == Fail(500, FailedToRecord)
    ensures body.Some? && Admitted(body.value, chain) && link.Up? ==>
      var row := Submitted(body.value, parseFloat, now).WithId(old(db.nextId));
      reply == Json(row) && db.tips == old(db.tips) + [row] && db.nextId == old(db.nextId) + 1
    ensures !(body.Some? && Admitted(body.value, chain) && link.Up?) ==>
      db.tips == old(db.tips) && db.nextId == old(db.nextId)
  {
    if body.None? {
      return Fail(500, FailedToRecord);
    }
    var b := body.value;
    if !HasRequiredFields(b) {
      return Fail(400, MissingFields);
    }
    var verification := Bitquery.VerifyTransaction(b.transactionHash.value, chain);
    if verification.Ok? {
      if verification.value.None? || !verification.value.value.success {
        return Fail(400, VerificationFailed);
      }
    }
    var recorded := db.RecordTip(Submitted(b, parseFloat, now), link);
    if recorded.Err? {
      return Fail(500, FailedToRecord);
    }
    reply := Json(recorded.value);
  }

  /** `GET /api/tips?address=`: exactly the receiver's tips, newest first. */
  function Get(db: Tables, address: Option<string>, link: Link): (reply: Reply<seq<Tip>>)
    reads db
    ensures !Truthy(address) ==> reply == Fail(400, AddressRequired)
    ensures Truthy(address) && link.Down? ==> reply == Fail(500, FailedToFetch)
    ensures Truthy(address) && link.Up? ==>
      && reply.Json?
      && NewestFirst(reply.body)
      && multiset(reply.body) == multiset(db.ReceivedBy(address.value))
      && reply.body == db.GetCreatorTips(address.value, link).value
  {
    if !Truthy(address) then Fail(400, AddressRequired)
    else
      match db.GetCreatorTips(address.value, link)
      case Err(_) => Fail(500, FailedToFetch)
      case Ok(tips) => Json(tips)
  }

  /** A body that passes validation is recorded whenever verification
      throws, whatever the error: a failed fetch, a non-OK status or a body
      of the wrong shape. */
  lemma VerificationErrorDoesNotBlock(b: TipBody, chain: string -> Bitquery.Fetched<Bitquery.ChainTx>)
    requires HasRequiredFields(b)
    requires Bitquery.VerifyTransaction(b.transactionHash.value, chain).Err?
    ensures Admitted(b, chain)
  {
  }

  /** A transaction the indexer does not know, or one it reports as failed,
      blocks the tip. */
  lemma UnconfirmedTransactionBlocks(b: TipBody, chain: string -> Bitquery.Fetched<Bitquery.ChainTx>,
                                     statusText: string, txs: seq<Bitquery.ChainTx>)
    requires HasRequiredFields(b)
    requires chain(b.transactionHash.value) == Bitquery.Response(true, statusText, Bitquery.Shaped(Some(txs)))
    requires txs == [] || !txs[0].success
    ensures !Admitted(b, chain)
  {
  }

  /** The string `"0"` is a present amount; the number `0` is a missing one;
      a negative number passes. */
  lemma AmountTruthiness()
    ensures AmountTruthy(TextAmount("0"))
    ensures !AmountTruthy(NumberAmount(0.0))
    ensures AmountTruthy(NumberAmount(-5.0))
  {
  }

  /** The route keeps no record of hashes it has seen: the same admitted
      body posted twice, with the store accepting both inserts, gives two
      rows with the same `transactionHash`. */
  method RepeatedHashIsRecordedTwice(b: TipBody, chain: string -> Bitquery.Fetched<Bitquery.ChainTx>,
                                     parseFloat: string -> real, now: int)
    returns (first: Reply<Tip>, second: Reply<Tip>)
    requires Admitted(b, chain)
    ensures first.Json? && second.Json?
    ensures first.body.transactionHash == second.body.transactionHash == b.transactionHash.value
    ensures first.body.tipId != second.body.tipId
  {
    var db := new Tables();
    first := Post(db, Some(b), chain, parseFloat, now, Up);
    second := Post(db, Some(b), chain, parseFloat, now, Up);
  }
}
