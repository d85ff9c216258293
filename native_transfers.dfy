/**
 * Client-side settlement of native token transfers
 * (autonomi/src/client/native_transfers.rs): storing spends on the network,
 * classifying the outcome of a batch of spends, checking whether a cash note is
 * still unspent, and the wallet bookkeeping around sending and receiving.
 *
 * The network is a `SpendNetwork` of total functions standing for the results
 * `get_closest_peers`, `put_record` and `get_spend` would give; the wallet's own
 * logic (transaction building, transfer unwrapping, deposits) enters as results
 * passed in by the caller.
 */
module NativeTransfers {
  import opened Wrappers
  import opened Types
  import opened NetworkApi
  import Header

  /** `SignedSpend`, identified by the unique public key of the cash note it spends. */
  datatype SignedSpend = SignedSpend(uniquePubkey: PublicKey, tag: nat)

  /** `CashNote`, identified by its unique public key. */
  datatype CashNote = CashNote(uniquePubkey: PublicKey, tag: nat)

  /** `CashNoteRedemption`, unwrapped from a `Transfer`. */
  datatype Redemption = Redemption(id: nat)

  /** `sn_transfers::Transfer`, opaque. */
  datatype Transfer = Transfer(id: nat)

  /** What `create_signed_transaction` returns: the new cash notes and the spends to store. */
  datatype SignedTransaction = SignedTransaction(outputCashnotes: seq<CashNote>, spends: seq<SignedSpend>)

  /**
   * `SendSpendsError`. The `CouldNotSendMoney` report is kept as the list of
   * failing keys with their errors, in the order the report lists them.
   */
  datatype SendSpendsError =
    | DoubleSpendAttemptedForCashNotes(keys: set<PublicKey>)
    | CouldNotSendMoney(report: seq<(PublicKey, NetworkError)>)

  /** `TransferError`, with the wallet error an opaque code. */
  datatype TransferError =
    | TransferWalletError(walletError: nat)
    | TransferNetworkError(networkError: NetworkError)

  /** `CashNoteError`; `FailedToGetSpend` keeps the error its message is formatted from. */
  datatype CashNoteError = AlreadySpent | FailedToGetSpend(cause: NetworkError)

  /** `SendError`, with wallet and transfer errors as opaque codes. */
  datatype SendError =
    | CashNoteAmountUnexpected(reason: string)
    | CashNoteHasNoParentSpends
    | SendWalletError(walletCode: nat)
    | SendTransferError(transferCode: nat)
    | SpendsError(spendsError: SendSpendsError)

  /**
   * The client's view of the network: the answers the network gives, the
   * crate's `VERIFY_STORE` switch and the `rmp_serde` codec of spend lists.
   */
  datatype SpendNetwork = SpendNetwork(
    verifyStore: bool,
    spendCodec: Header.Codec<seq<SignedSpend>>,
    getClosestPeers: NetworkAddress -> Result<seq<PeerId>, NetworkError>,
    putRecord: PutRequest -> Result<(), NetworkError>,
    getSpend: NetworkAddress -> Result<SignedSpend, NetworkError>)

  /** The peers that a `Network`-verified put expects to hold the record. */
  function ExpectedHolders(peers: seq<PeerId>): (r: set<PeerId>)
    ensures forall p :: p in r <==> p in peers
  {
    set p | p in peers
  }

  /**
   * The put that `store_spend` issues for `spend`: a `Spend` record holding the
   * one-element list `[spend]`, stored at the spend address of its key. A payload
   * that cannot be encoded fails as a protocol error; with `VERIFY_STORE` the
   * closest-peers lookup comes next and its failure is returned as is.
   */
  function StoreSpendRequest(net: SpendNetwork, spend: SignedSpend): (r: Result<PutRequest, NetworkError>)
    ensures net.spendCodec.encode([spend]).None? ==> r == Err(Protocol(Header.RecordParsingFailed))
    ensures net.spendCodec.encode([spend]).Some? && net.verifyStore
              && net.getClosestPeers(SpendAddress(spend.uniquePubkey)).Err?
            ==> r == Err(net.getClosestPeers(SpendAddress(spend.uniquePubkey)).error)
    ensures r.Ok? <==>
              && net.spendCodec.encode([spend]).Some?
              && (net.verifyStore ==> net.getClosestPeers(SpendAddress(spend.uniquePubkey)).Ok?)
    ensures r.Ok? ==>
              && r.value.record.key == ToRecordKey(SpendAddress(spend.uniquePubkey))
              && r.value.record.value == Header.HeaderBytes(Header.Spend) + net.spendCodec.encode([spend]).value
    ensures r.Ok? ==>
              && r.value.cfg.putQuorum == Majority
              && r.value.cfg.retryStrategy == Some(Persistent)
              && r.value.cfg.usePutRecordTo.None?
              && r.value.cfg.verification.Some?
              && r.value.cfg.verification.value.0 == Network
    ensures r.Ok? ==>
              var check := r.value.cfg.verification.value.1;
              && check.getQuorum == Majority
              && check.retryStrategy.None?
              && !check.isRegister
              && (check.targetRecord.Some? <==> net.verifyStore)
              && (net.verifyStore ==> check.targetRecord == Some(r.value.record))
              && (forall p :: p in check.expectedHolders <==>
                    net.verifyStore && p in net.getClosestPeers(SpendAddress(spend.uniquePubkey)).value)
  {
    var address := SpendAddress(spend.uniquePubkey);
    match Header.TrySerializeRecord(net.spendCodec, [spend], Header.Spend)
    case Err(e) => Err(Protocol(e))
    case Ok(bytes) =>
      var record := Record(ToRecordKey(address), bytes);
      if net.verifyStore then
        match net.getClosestPeers(address)
        case Err(e) => Err(e)
        case Ok(peers) =>
          Ok(PutRequest(record, PutRecordCfg(Majority, Some(Persistent), None,
            Some((Network, GetRecordCfg(Majority, None, Some(record), ExpectedHolders(peers), false))))))
      else
        Ok(PutRequest(record, PutRecordCfg(Majority, Some(Persistent), None,
          Some((Network, GetRecordCfg(Majority, None, None, {}, false))))))
  }

  /** `store_spend`: the put's own result, or the failure that prevented the put. */
  function StoreSpend(net: SpendNetwork, spend: SignedSpend): (r: Result<(), NetworkError>)
    ensures StoreSpendRequest(net, spend).Err? ==> r == Err(StoreSpendRequest(net, spend).error)
    ensures StoreSpendRequest(net, spend).Ok? ==> r == net.putRecord(StoreSpendRequest(net, spend).value)
  {
    match StoreSpendRequest(net, spend)
    case Err(e) => Err(e)
    case Ok(put) => net.putRecord(put)
  }

  /**
   * The record `store_spend` stores is a `Spend` record at the spend's address
   * that decodes back to exactly `[spend]` whenever the codec round-trips.
   */
  lemma StoredSpendDecodes(net: SpendNetwork, spend: SignedSpend)
    requires Header.RoundTrips(net.spendCodec)
    requires StoreSpendRequest(net, spend).Ok?
    ensures var record := StoreSpendRequest(net, spend).value.record;
            && FromRecordKey(record.key) == SpendAddress(spend.uniquePubkey)
            && Header.FromRecord(record) == Ok(Header.RecordHeader(Header.Spend))
            && Header.TryDeserializeRecord(net.spendCodec, record) == Ok([spend])
  {
    var record := StoreSpendRequest(net, spend).value.record;
    Header.FromRecordOfSerialized(net.spendCodec, [spend], Header.Spend, record.key);
    Header.PayloadRoundTrip(net.spendCodec, [spend], Header.Spend, record.key);
  }

  /** One finished `store_spend` task: the spend's key and the put's result. */
  datatype SpendOutcome = SpendOutcome(key: PublicKey, result: Result<(), NetworkError>)

  /** The two errors `send_spends` reads as a double spend. */
  predicate IsDoubleSpendError(e: NetworkError)
  {
    e.GetRecordErr? && (e.getError.RecordDoesNotMatch? || e.getError.SplitRecord?)
  }

  predicate IsDoubleSpend(r: Result<(), NetworkError>)
  {
    r.Err? && IsDoubleSpendError(r.error)
  }

  predicate IsGenericFailure(r: Result<(), NetworkError>)
  {
    r.Err? && !IsDoubleSpendError(r.error)
  }

  /** The outcomes of the spend tasks, one per spend and in order. */
  function Outcomes(net: SpendNetwork, spends: seq<SignedSpend>): (r: seq<SpendOutcome>)
    ensures |r| == |spends|
    ensures forall i :: 0 <= i < |spends| ==>
              r[i] == SpendOutcome(spends[i].uniquePubkey, StoreSpend(net, spends[i]))
  {
    if spends == [] then []
    else
      var last := spends[|spends| - 1];
      Outcomes(net, spends[..|spends| - 1]) + [SpendOutcome(last.uniquePubkey, StoreSpend(net, last))]
  }

  /** The `double_spent_keys` set after folding `outs`. */
  function DoubleSpentKeys(outs: seq<SpendOutcome>): set<PublicKey>
  {
    if outs == [] then {}
    else
      var last := outs[|outs| - 1];
      DoubleSpentKeys(outs[..|outs| - 1]) + (if IsDoubleSpend(last.result) then {last.key} else {})
  }

  /** The `errors` list after folding `outs`. */
  function GenericFailures(outs: seq<SpendOutcome>): seq<(PublicKey, NetworkError)>
  {
    if outs == [] then []
    else
      var last := outs[|outs| - 1];
      GenericFailures(outs[..|outs| - 1]) + (if IsGenericFailure(last.result) then [(last.key, last.result.error)] else [])
  }

  /** The verdict of `send_spends`: double spends first, then the other failures. */
  function Classify(outs: seq<SpendOutcome>): Result<(), SendSpendsError>
  {
    if DoubleSpentKeys(outs) != {} then Err(DoubleSpendAttemptedForCashNotes(DoubleSpentKeys(outs)))
    else if GenericFailures(outs) != [] then Err(CouldNotSendMoney(GenericFailures(outs)))
    else Ok(())
  }

  /** A key is in the double-spend set exactly when one of its puts failed as a double spend. */
  lemma {:induction false} DoubleSpentKeysExact(outs: seq<SpendOutcome>)
    ensures forall k :: k in DoubleSpentKeys(outs) <==>
              exists i :: 0 <= i < |outs| && outs[i].key == k && IsDoubleSpend(outs[i].result)
  {
    if outs != [] {
      var init := outs[..|outs| - 1];
      DoubleSpentKeysExact(init);
      forall k ensures k in DoubleSpentKeys(outs) <==>
          exists i :: 0 <= i < |outs| && outs[i].key == k && IsDoubleSpend(outs[i].result)
      {
        if exists i :: 0 <= i < |outs| && outs[i].key == k && IsDoubleSpend(outs[i].result) {
          var i :| 0 <= i < |outs| && outs[i].key == k && IsDoubleSpend(outs[i].result);
          if i < |init| {
            assert init[i] == outs[i];
          }
        }
        if k in DoubleSpentKeys(init) {
          var i :| 0 <= i < |init| && init[i].key == k && IsDoubleSpend(init[i].result);
          assert outs[i] == init[i];
        }
      }
    }
  }

  /**
   * The generic list holds exactly the failures that are not double spends: so
   * the report names every other failing key, and never a double-spent one.
   */
  lemma {:induction false} GenericFailuresExact(outs: seq<SpendOutcome>)
    ensures forall k, e :: (k, e) in GenericFailures(outs) <==>
              exists i :: 0 <= i < |outs| && outs[i].key == k && outs[i].result == Err(e) && !IsDoubleSpendError(e)
    ensures GenericFailures(outs) == [] <==> forall i :: 0 <= i < |outs| ==> !IsGenericFailure(outs[i].result)
  {
    if outs != [] {
      var init := outs[..|outs| - 1];
      GenericFailuresExact(init);
      forall k, e ensures (k, e) in GenericFailures(outs) <==>
          exists i :: 0 <= i < |outs| && outs[i].key == k && outs[i].result == Err(e) && !IsDoubleSpendError(e)
      {
        if exists i :: 0 <= i < |outs| && outs[i].key == k && outs[i].result == Err(e) && !IsDoubleSpendError(e) {
          var i :| 0 <= i < |outs| && outs[i].key == k && outs[i].result == Err(e) && !IsDoubleSpendError(e);
          if i < |init| {
            assert init[i] == outs[i];
          }
        }
        if (k, e) in GenericFailures(init) {
          var i :| 0 <= i < |init| && init[i].key == k && init[i].result == Err(e) && !IsDoubleSpendError(e);
          assert outs[i] == init[i];
        }
      }
    }
  }

  /** `send_spends` succeeds exactly when every put succeeded. */
  lemma ClassifyOkIff(outs: seq<SpendOutcome>)
    ensures Classify(outs).Ok? <==> forall i :: 0 <= i < |outs| ==> outs[i].result.Ok?
  {
    DoubleSpentKeysExact(outs);
    GenericFailuresExact(outs);
    if exists i :: 0 <= i < |outs| && outs[i].result.Err? {
      var i :| 0 <= i < |outs| && outs[i].result.Err?;
      if IsDoubleSpendError(outs[i].result.error) {
        assert outs[i].key in DoubleSpentKeys(outs);
      } else {
        assert (outs[i].key, outs[i].result.error) in GenericFailures(outs);
      }
    } else {
      assert forall k :: k !in DoubleSpentKeys(outs);
    }
  }

  /**
   * Double spends take precedence: as soon as one put failed as a double spend,
   * the verdict is `DoubleSpendAttemptedForCashNotes` with exactly the
   * double-spent keys, whatever other failures occurred.
   */
  lemma DoubleSpendPrecedence(outs: seq<SpendOutcome>, j: nat)
    requires j < |outs| && IsDoubleSpend(outs[j].result)
    ensures Classify(outs).Err? && Classify(outs).error.DoubleSpendAttemptedForCashNotes?
    ensures forall k :: k in Classify(outs).error.keys <==>
              exists i :: 0 <= i < |outs| && outs[i].key == k && IsDoubleSpend(outs[i].result)
  {
    DoubleSpentKeysExact(outs);
    assert outs[j].key in DoubleSpentKeys(outs);
  }

  /**
   * Without double spends, any failure gives `CouldNotSendMoney` whose report
   * lists each failing key with its error, and nothing else.
   */
  lemma CouldNotSendMoneyReport(outs: seq<SpendOutcome>, j: nat)
    requires forall i :: 0 <= i < |outs| ==> !IsDoubleSpend(outs[i].result)
    requires j < |outs| && outs[j].result.Err?
    ensures Classify(outs).Err? && Classify(outs).error.CouldNotSendMoney?
    ensures forall k, e :: (k, e) in Classify(outs).error.report <==>
              exists i :: 0 <= i < |outs| && outs[i].key == k && outs[i].result == Err(e)
  {
    DoubleSpentKeysExact(outs);
    GenericFailuresExact(outs);
    assert (outs[j].key, outs[j].result.error) in GenericFailures(outs);
    assert forall k :: k !in DoubleSpentKeys(outs);
  }

  /**
   * `send_spends`: one `store_spend` task per spend, then the fold of their
   * results into `double_spent_keys` and `errors`, then the verdict.
   */
  method SendSpends(net: SpendNetwork, spends: seq<SignedSpend>) returns (r: Result<(), SendSpendsError>)
    ensures r == Classify(Outcomes(net, spends))
  {
    var tasks: seq<SpendOutcome> := [];
    for i := 0 to |spends|
      invariant tasks == Outcomes(net, spends[..i])
    {
      assert spends[..i + 1][..i] == spends[..i];
      tasks := tasks + [SpendOutcome(spends[i].uniquePubkey, StoreSpend(net, spends[i]))];
    }
    assert spends[..|spends|] == spends;

    var errors: seq<(PublicKey, NetworkError)> := [];
    var doubleSpentKeys: set<PublicKey> := {};
    for j := 0 to |tasks|
      invariant doubleSpentKeys == DoubleSpentKeys(tasks[..j])
      invariant errors == GenericFailures(tasks[..j])
    {
      assert tasks[..j + 1][..j] == tasks[..j];
      var outcome := tasks[j];
      match outcome.result
      case Err(e) =>
        if IsDoubleSpendError(e) {
          doubleSpentKeys := doubleSpentKeys + {outcome.key};
        } else {
          errors := errors + [(outcome.key, e)];
        }
      case Ok(_) =>
    }
    assert tasks[..|tasks|] == tasks;

    if doubleSpentKeys != {} {
      return Err(DoubleSpendAttemptedForCashNotes(doubleSpentKeys));
    }
    if errors != [] {
      return Err(CouldNotSendMoney(errors));
    }
    r := Ok(());
  }

  /**
   * `verify_if_cash_note_is_valid`: the note is unspent exactly when its spend is
   * not found; a found spend means already spent; any other failure is reported.
   */
  function VerifyIfCashNoteIsValid(net: SpendNetwork, note: CashNote): (r: Result<(), CashNoteError>)
    ensures r.Ok? <==> net.getSpend(SpendAddress(note.uniquePubkey)) == Err(GetRecordErr(RecordNotFound))
    ensures r == Err(AlreadySpent) <==> net.getSpend(SpendAddress(note.uniquePubkey)).Ok?
    ensures r.Err? && r.error.FailedToGetSpend? <==>
              && net.getSpend(SpendAddress(note.uniquePubkey)).Err?
              && net.getSpend(SpendAddress(note.uniquePubkey)).error != GetRecordErr(RecordNotFound)
    ensures r.Err? && r.error.FailedToGetSpend? ==>
              net.getSpend(SpendAddress(note.uniquePubkey)) == Err(r.error.cause)
  {
    match net.getSpend(SpendAddress(note.uniquePubkey))
    case Err(GetRecordErr(RecordNotFound)) => Ok(())
    case Ok(_) => Err(AlreadySpent)
    case Err(e) => Err(FailedToGetSpend(e))
  }

  /** The notes among `notes` that the network reports unspent, in order. */
  function ValidNotes(net: SpendNetwork, notes: seq<CashNote>): seq<CashNote>
  {
    if notes == [] then []
    else
      var last := notes[|notes| - 1];
      ValidNotes(net, notes[..|notes| - 1]) + (if VerifyIfCashNoteIsValid(net, last).Ok? then [last] else [])
  }

  lemma {:induction false} ValidNotesExact(net: SpendNetwork, notes: seq<CashNote>)
    ensures forall c :: c in ValidNotes(net, notes) <==> c in notes && VerifyIfCashNoteIsValid(net, c).Ok?
  {
    if notes != [] {
      var init := notes[..|notes| - 1];
      ValidNotesExact(net, init);
      assert notes == init + [notes[|notes| - 1]];
    }
  }

  /** The deposits of a `receive_transfer` run, and the deposit error that ended it early, if any. */
  datatype DepositRun = DepositRun(deposited: seq<CashNote>, failure: Option<nat>)

  /**
   * The `for cash_note in cash_notes` loop: each valid note is deposited, and a
   * failing deposit (`depositError` gives its wallet error) stops the loop.
   */
  function Deposits(net: SpendNetwork, notes: seq<CashNote>, depositError: CashNote -> Option<nat>): DepositRun
  {
    if notes == [] then DepositRun([], None)
    else
      var run := Deposits(net, notes[..|notes| - 1], depositError);
      var last := notes[|notes| - 1];
      if run.failure.Some? || VerifyIfCashNoteIsValid(net, last).Err? then run
      else if depositError(last).Some? then DepositRun(run.deposited, depositError(last))
      else DepositRun(run.deposited + [last], None)
  }

  /** Once a deposit has failed, later notes change nothing. */
  lemma {:induction false} DepositsStop(net: SpendNetwork, notes: seq<CashNote>, j: nat,
                                        depositError: CashNote -> Option<nat>)
    requires j <= |notes|
    requires Deposits(net, notes[..j], depositError).failure.Some?
    ensures Deposits(net, notes, depositError) == Deposits(net, notes[..j], depositError)
    decreases |notes| - j
  {
    if j < |notes| {
      assert notes[..j + 1][..j] == notes[..j];
      DepositsStop(net, notes, j + 1, depositError);
    } else {
      assert notes[..j] == notes;
    }
  }

  /** Whatever happens, only notes the network reports unspent are deposited. */
  lemma {:induction false} DepositedAreValid(net: SpendNetwork, notes: seq<CashNote>,
                                             depositError: CashNote -> Option<nat>)
    ensures forall c :: c in Deposits(net, notes, depositError).deposited ==>
              c in notes && VerifyIfCashNoteIsValid(net, c).Ok?
  {
    if notes != [] {
      var init := notes[..|notes| - 1];
      DepositedAreValid(net, init, depositError);
      assert notes == init + [notes[|notes| - 1]];
    }
  }

  /**
   * When every deposit succeeds, `receive_transfer` deposits exactly the valid
   * notes, in order, and reports success.
   */
  lemma {:induction false} DepositsAreValidNotes(net: SpendNetwork, notes: seq<CashNote>,
                                                 depositError: CashNote -> Option<nat>)
    requires forall i :: 0 <= i < |notes| ==> depositError(notes[i]).None?
    ensures Deposits(net, notes, depositError) == DepositRun(ValidNotes(net, notes), None)
  {
    if notes != [] {
      var init := notes[..|notes| - 1];
      assert forall i :: 0 <= i < |init| ==> init[i] == notes[i];
      DepositsAreValidNotes(net, init, depositError);
    }
  }

  /** The parts of `MemWallet` this core changes. */
  class MemWallet {
    /** Cash notes deposited into the wallet. */
    var deposited: seq<CashNote>
    /** Signed transactions processed into the wallet. */
    var processed: seq<SignedTransaction>
    /** Spends added as pending. */
    var pendingSpends: seq<SignedSpend>

    constructor ()
      ensures deposited == [] && processed == [] && pendingSpends == []
    {
      deposited := [];
      processed := [];
      pendingSpends := [];
    }

    /** The `for spend in &signed_transaction.spends` loop of `send`. */
    method AddPendingSpends(spends: seq<SignedSpend>)
      modifies this
      ensures pendingSpends == old(pendingSpends) + spends
      ensures deposited == old(deposited) && processed == old(processed)
    {
      for i := 0 to |spends|
        invariant pendingSpends == old(pendingSpends) + spends[..i]
        invariant deposited == old(deposited) && processed == old(processed)
      {
        assert spends[..i + 1] == spends[..i] + [spends[i]];
        pendingSpends := pendingSpends + [spends[i]];
      }
      assert spends[..|spends|] == spends;
    }
  }

  /**
   * `receive_transfer`: unwrap the transfer (`unwrap`), verify the redemptions
   * (`verifyRedemptions`), then deposit the cash notes that are still unspent.
   * Notes found spent or unverifiable are skipped, and the call still succeeds.
   */
  method ReceiveTransfer(
    net: SpendNetwork, unwrap: Result<seq<Redemption>, nat>,
    verifyRedemptions: seq<Redemption> -> Result<seq<CashNote>, NetworkError>,
    depositError: CashNote -> Option<nat>, wallet: MemWallet)
    returns (r: Result<(), TransferError>)
    modifies wallet
    ensures wallet.processed == old(wallet.processed) && wallet.pendingSpends == old(wallet.pendingSpends)
    ensures unwrap.Err? ==>
              r == Err(TransferWalletError(unwrap.error)) && wallet.deposited == old(wallet.deposited)
    ensures unwrap.Ok? && verifyRedemptions(unwrap.value).Err? ==>
              && r == Err(TransferNetworkError(verifyRedemptions(unwrap.value).error))
              && wallet.deposited == old(wallet.deposited)
    ensures unwrap.Ok? && verifyRedemptions(unwrap.value).Ok? ==>
              var run := Deposits(net, verifyRedemptions(unwrap.value).value, depositError);
              && wallet.deposited == old(wallet.deposited) + run.deposited
              && r == (if run.failure.None? then Ok(()) else Err(TransferWalletError(run.failure.value)))
  {
    if unwrap.Err? {
      return Err(TransferWalletError(unwrap.error));
    }
    var verified := verifyRedemptions(unwrap.value);
    if verified.Err? {
      return Err(TransferNetworkError(verified.error));
    }
    var notes := verified.value;
    for i := 0 to |notes|
      invariant Deposits(net, notes[..i], depositError).failure.None?
      invariant wallet.deposited == old(wallet.deposited) + Deposits(net, notes[..i], depositError).deposited
      invariant wallet.processed == old(wallet.processed) && wallet.pendingSpends == old(wallet.pendingSpends)
    {
      assert notes[..i + 1][..i] == notes[..i];
      var note := notes[i];
      if VerifyIfCashNoteIsValid(net, note).Ok? {
        match depositError(note)
        case Some(e) =>
          DepositsStop(net, notes, i + 1, depositError);
          return Err(TransferWalletError(e));
        case None =>
          wallet.deposited := wallet.deposited + [note];
      }
    }
    assert notes[..|notes|] == notes;
    r := Ok(());
  }

  /** The output-count check of `send`: exactly one output cash note. */
  function SelectRecipientCashNote(outputs: seq<CashNote>): (r: Result<CashNote, SendError>)
    ensures r.Ok? <==> |outputs| == 1
    ensures r.Ok? ==> r.value == outputs[0]
    ensures |outputs| == 0 ==> r == Err(CashNoteAmountUnexpected("Got 0, expected 1."))
    ensures |outputs| > 1 ==> r == Err(CashNoteAmountUnexpected("Got multiple, expected 1."))
  {
    if |outputs| == 1 then Ok(outputs[0])
    else if |outputs| == 0 then Err(CashNoteAmountUnexpected("Got 0, expected 1."))
    else Err(CashNoteAmountUnexpected("Got multiple, expected 1."))
  }

  /**
   * `send`: build the transaction (`createTx`), take its single output, make the
   * transfer (`transferFromCashNote`), store the spends, and only then record the
   * transaction and its pending spends in the wallet. Any failure leaves the
   * wallet as it was.
   */
  method Send(
    net: SpendNetwork, createTx: Result<SignedTransaction, nat>,
    transferFromCashNote: CashNote -> Result<Transfer, nat>, wallet: MemWallet)
    returns (r: Result<Transfer, SendError>)
    modifies wallet
    ensures wallet.deposited == old(wallet.deposited)
    ensures r.Err? ==> wallet.processed == old(wallet.processed) && wallet.pendingSpends == old(wallet.pendingSpends)
    ensures createTx.Err? ==> r == Err(SendWalletError(createTx.error))
    ensures createTx.Ok? && SelectRecipientCashNote(createTx.value.outputCashnotes).Err? ==>
              r == Err(SelectRecipientCashNote(createTx.value.outputCashnotes).error)
    ensures createTx.Ok? && |createTx.value.outputCashnotes| == 1
              && transferFromCashNote(createTx.value.outputCashnotes[0]).Err? ==>
              r == Err(SendTransferError(transferFromCashNote(createTx.value.outputCashnotes[0]).error))
    ensures createTx.Ok? && |createTx.value.outputCashnotes| == 1
              && transferFromCashNote(createTx.value.outputCashnotes[0]).Ok?
              && Classify(Outcomes(net, createTx.value.spends)).Err? ==>
              r == Err(SpendsError(Classify(Outcomes(net, createTx.value.spends)).error))
    ensures r.Ok? <==>
              && createTx.Ok? && |createTx.value.outputCashnotes| == 1
              && transferFromCashNote(createTx.value.outputCashnotes[0]).Ok?
              && Classify(Outcomes(net, createTx.value.spends)).Ok?
    ensures r.Ok? ==>
              && r.value == transferFromCashNote(createTx.value.outputCashnotes[0]).value
              && wallet.processed == old(wallet.processed) + [createTx.value]
              && wallet.pendingSpends == old(wallet.pendingSpends) + createTx.value.spends
  {
    if createTx.Err? {
      return Err(SendWalletError(createTx.error));
    }
    var tx := createTx.value;
    var recipient := SelectRecipientCashNote(tx.outputCashnotes);
    if recipient.Err? {
      return Err(recipient.error);
    }
    var transfer := transferFromCashNote(recipient.value);
    if transfer.Err? {
      return Err(SendTransferError(transfer.error));
    }
    var sent := SendSpends(net, tx.spends);
    if sent.Err? {
      return Err(SpendsError(sent.error));
    }
    wallet.processed := wallet.processed + [tx];
    wallet.AddPendingSpends(tx.spends);
    r := Ok(transfer.value);
  }

  /** The part of `HotWallet` that `resend_pending_transactions` reads and clears. */
  class HotWallet {
    var unconfirmedSpendRequests: seq<SignedSpend>

    constructor (unconfirmed: seq<SignedSpend>)
      ensures unconfirmedSpendRequests == unconfirmed
    {
      unconfirmedSpendRequests := unconfirmed;
    }

    method ClearConfirmedSpendRequests()
      modifies this
      ensures unconfirmedSpendRequests == []
    {
      unconfirmedSpendRequests := [];
    }
  }

  /**
   * `resend_pending_transactions`: with nothing unconfirmed it does nothing;
   * otherwise it resends every unconfirmed spend and clears them only if the
   * whole batch succeeded.
   */
  method ResendPendingTransactions(net: SpendNetwork, wallet: HotWallet)
    modifies wallet
    ensures old(wallet.unconfirmedSpendRequests) == [] ==> wallet.unconfirmedSpendRequests == []
    ensures old(wallet.unconfirmedSpendRequests) != [] ==>
              wallet.unconfirmedSpendRequests ==
                (if Classify(Outcomes(net, old(wallet.unconfirmedSpendRequests))).Ok? then []
                 else old(wallet.unconfirmedSpendRequests))
  {
    if wallet.unconfirmedSpendRequests == [] {
      return;
    }
    var sent := SendSpends(net, wallet.unconfirmedSpendRequests);
    if sent.Ok? {
      wallet.ClearConfirmedSpendRequests();
    }
  }
}
