/**
 * The lockup ledger: per account, a locked amount of one liquidity-pool token and the time from
 * which it may be withdrawn. Funds arrive from the token contract's transfer notification,
 * leave through a two-step withdrawal (a transfer request, then a callback with its outcome),
 * and withdrawals stay closed until the administrator marks the contract audited.
 *
 * Every entry point either applies completely or aborts with an `Error` and changes nothing:
 * on the chain a panic reverts the whole call. The caller, the attached deposit and the block
 * time come in as an `Env`; the transfer a withdrawal starts is returned as a value.
 */
module Lockups {
  import opened Uints
  import opened Options
  import opened AccountIds
  import opened DecimalText
  import opened OrderedMap

  /** The storage fee register_lockup demands: 100 milliNEAR (0.1 NEAR), in yoctoNEAR. */
  const STORAGE_DEPOSIT: nat := 100_000_000_000_000_000_000_000
  /** The one-yoctoNEAR marker payment demanded by withdraw and set_audited. */
  const ONE_YOCTO: nat := 1
  /** The only account that may open withdrawals. */
  const ADMIN: AccountId := "slimedragon.near"

  datatype Lockup = Lockup(amount: U128, durationNs: U64, timestamp: U64)

  /** The earliest block time at which the lockup may be withdrawn, computed without wrapping. */
  function ReleaseTime(l: Lockup): nat
  {
    l.timestamp + l.durationNs
  }

  /** What the runtime tells a call: who called it, what they attached, the block time. */
  datatype Env = Env(predecessor: AccountId, attachedDeposit: U128, blockTimestamp: U64)

  datatype Error =
    | WrongStorageDeposit   // register_lockup without exactly STORAGE_DEPOSIT attached
    | LockupExists          // register_lockup for an account that already has a lockup
    | NotRefAddress         // transfer notification from another account than the token contract
    | WrongToken            // transfer notification for another token than the configured pool's
    | InvalidDuration       // transfer message that is not a decimal u64
    | ReleaseMovedEarlier   // funding that would bring an existing release time forward
    | Overflow              // a u64 or u128 sum that does not fit
    | RequiresOneYocto      // withdraw or set_audited without exactly one yoctoNEAR attached
    | NotAudited            // withdraw before the contract is audited
    | LockupNotFound        // withdraw by an account without a lockup
    | NotReleased           // withdraw before the release time
    | NotAdmin              // set_audited by another account than ADMIN

  datatype Outcome = Pass | Fail(error: Error)
  datatype Result<T> = Ok(value: T) | Err(error: Error)

  /** The multi-token id of pool `poolId` on the token contract: ':' followed by the pool number. */
  function TokenId(poolId: U64): string
  {
    ":" + Decimal(poolId)
  }

  /** The token-id check accepts the shares of exactly one pool. */
  lemma TokenIdInjective(a: U64, b: U64)
    requires TokenId(a) == TokenId(b)
    ensures a == b
  {
    assert Decimal(a) == TokenId(a)[1..];
    assert Decimal(b) == TokenId(b)[1..];
    DecimalInjective(a, b);
  }

  /**
   * The lockup a deposit of `amount` locked for `duration` at block time `now` leaves behind,
   * given the account's current lockup if any. A new lockup is simply created. An existing one
   * is merged: the amounts add up and the new duration and timestamp replace the old ones, but
   * only if that does not bring the release time forward (extend-only). The u64 sums of both
   * release times and the u128 sum of the amounts abort on overflow.
   */
  function Fund(existing: Option<Lockup>, amount: U128, duration: U64, now: U64): (r: Result<Lockup>)
    ensures existing.None? ==> r.Ok?
    ensures existing.Some? ==>
      (r.Ok? <==> ReleaseTime(existing.value) <= now + duration < U64_LIMIT
                  && existing.value.amount + amount < U128_LIMIT)
    ensures r.Ok? ==> r.value.durationNs == duration && r.value.timestamp == now
    ensures r.Ok? ==> r.value.amount == amount + (if existing.Some? then existing.value.amount else 0)
    ensures r.Ok? && existing.Some? ==> ReleaseTime(existing.value) <= ReleaseTime(r.value)
    ensures r.Err? ==> r.error == Overflow || r.error == ReleaseMovedEarlier
  {
    match existing
    case None => Ok(Lockup(amount, duration, now))
    case Some(l) =>
      if l.timestamp + l.durationNs >= U64_LIMIT || now + duration >= U64_LIMIT then Err(Overflow)
      else if l.timestamp + l.durationNs <= now + duration then
        if amount + l.amount >= U128_LIMIT then Err(Overflow)
        else Ok(Lockup(amount + l.amount, duration, now))
      else Err(ReleaseMovedEarlier)
  }

  /**
   * The release check of a withdrawal. The u64 sum aborts on overflow, but a lockup whose release
   * time does not fit in 64 bits is never due anyway, so the check passes exactly when the
   * release time has been reached.
   */
  function CheckReleased(l: Lockup, now: U64): (r: Outcome)
    ensures r.Pass? <==> ReleaseTime(l) <= now
    ensures r.Fail? ==> r.error == Overflow || r.error == NotReleased
  {
    if l.timestamp + l.durationNs >= U64_LIMIT then Fail(Overflow)
    else if l.timestamp + l.durationNs <= now then Pass
    else Fail(NotReleased)
  }

  /**
   * A lockup whose release time is beyond the u64 range can be neither withdrawn nor topped up:
   * every withdrawal and every further deposit for it aborts.
   */
  lemma OverflowingLockupIsFrozen(l: Lockup, amount: U128, duration: U64, now: U64)
    requires ReleaseTime(l) >= U64_LIMIT
    ensures CheckReleased(l, now).Fail?
    ensures Fund(Some(l), amount, duration, now).Err?
  {
  }

  /** The transfer out that a withdrawal asks the token contract to make. */
  datatype TransferRequest = TransferRequest(
    contract: AccountId,      // the token contract called
    attachedDeposit: nat,     // the yoctoNEAR attached to the call
    tokenId: string,
    receiverId: AccountId,
    amount: U128,
    memo: Option<string>)

  /** A started withdrawal: the transfer requested and the state its callback receives. */
  datatype Withdrawal = Withdrawal(transfer: TransferRequest, accountId: AccountId, lockup: Lockup)

  /**
   * get_lockups exactly as compiled for wasm32: the u64 `skip` and `take` are cast to the
   * 32-bit usize, which keeps only their low 32 bits.
   */
  function GetLockupsAsWritten(m: map<AccountId, Lockup>, skip: U64, take: U64): (r: seq<(AccountId, Lockup)>)
    ensures |r| == if skip % USIZE_LIMIT >= |m| then 0
                   else if take % USIZE_LIMIT < |m| - skip % USIZE_LIMIT then take % USIZE_LIMIT
                   else |m| - skip % USIZE_LIMIT
    ensures forall i :: 0 <= i < |r| ==>
              skip % USIZE_LIMIT + i < |m| && r[i] == Entries(m)[skip % USIZE_LIMIT + i]
  {
    Page(Entries(m), skip % USIZE_LIMIT, take % USIZE_LIMIT)
  }

  /** Below 2^32 the cast changes nothing: the code then pages exactly as intended. */
  lemma AsWrittenAgreesBelowUsize(m: map<AccountId, Lockup>, skip: U64, take: U64)
    requires skip < USIZE_LIMIT && take < USIZE_LIMIT
    ensures GetLockupsAsWritten(m, skip, take) == Page(Entries(m), skip, take)
  {
    assert skip % USIZE_LIMIT == skip;
    assert take % USIZE_LIMIT == take;
  }

  /**
   * Skipping 2^32 entries, past the end of any map of at most that many, restarts at the first
   * entry instead of returning nothing.
   */
  lemma TruncatedSkipRestarts(m: map<AccountId, Lockup>)
    requires 0 < |m| <= USIZE_LIMIT
    ensures Page(Entries(m), USIZE_LIMIT, 1) == []
    ensures GetLockupsAsWritten(m, USIZE_LIMIT, 1) == [Entries(m)[0]]
  {
  }

  /** Asking for 2^32 entries of a non-empty map returns none at all instead of all of them. */
  lemma TruncatedTakeIsEmpty(m: map<AccountId, Lockup>)
    requires 0 < |m| <= USIZE_LIMIT
    ensures Page(Entries(m), 0, USIZE_LIMIT) == Entries(m)
    ensures GetLockupsAsWritten(m, 0, USIZE_LIMIT) == []
  {
  }

  class LockupContract {
    /** The pool whose shares are locked here. */
    const poolId: U64
    /** The token contract that sends the shares and transfers them back. */
    const refAddress: AccountId
    var lockups: map<AccountId, Lockup>
    var audited: bool

    constructor (poolId: U64, refAddress: AccountId)
      ensures this.poolId == poolId && this.refAddress == refAddress
      ensures lockups == map[] && !audited
    {
      this.poolId := poolId;
      this.refAddress := refAddress;
      lockups := map[];
      audited := false;
    }

    /** The lockup of `accountId`, if it has one. */
    function GetLockup(accountId: AccountId): (r: Option<Lockup>)
      reads this
      ensures r.Some? <==> accountId in lockups
      ensures r.Some? ==> r.value == lockups[accountId]
    {
      if accountId in lockups then Some(lockups[accountId]) else None
    }

    /**
     * One page of the lockups in ascending account order: the first `skip` are passed over and
     * at most `take` of the rest are returned.
     */
    function GetLockups(skip: U64, take: U64): (r: seq<(AccountId, Lockup)>)
      reads this
      ensures |r| == if skip >= |lockups| then 0 else if take < |lockups| - skip then take else |lockups| - skip
      ensures skip >= |lockups| || take == 0 ==> r == []
      ensures forall i :: 0 <= i < |r| ==> r[i].0 in lockups && r[i].1 == lockups[r[i].0]
      ensures forall i, j :: 0 <= i < j < |r| ==> Below(r[i].0, r[j].0)
      ensures forall i :: 0 <= i < |r| ==> r[i] == Entries(lockups)[skip + i]
    {
      Page(Entries(lockups), skip, take)
    }

    /** Pre-creates an empty lockup for the caller, who pays the storage fee for it. */
    method RegisterLockup(env: Env) returns (r: Outcome)
      modifies this`lockups
      ensures r == if env.attachedDeposit != STORAGE_DEPOSIT then Fail(WrongStorageDeposit)
                   else if env.predecessor in old(lockups) then Fail(LockupExists)
                   else Pass
      ensures r.Fail? ==> lockups == old(lockups)
      ensures r.Pass? ==> lockups == old(lockups)[env.predecessor := Lockup(0, 0, env.blockTimestamp)]
    {
      if env.attachedDeposit != STORAGE_DEPOSIT {
        return Fail(WrongStorageDeposit);
      }
      if env.predecessor in lockups {
        return Fail(LockupExists);
      }
      lockups := lockups[env.predecessor := Lockup(0, 0, env.blockTimestamp)];
      return Pass;
    }

    /**
     * The token contract's notification that `senderId` transferred `amount` shares here with
     * message `msg`, the lock duration in nanoseconds. Returns the amount to refund: always 0,
     * since a rejected deposit aborts the call and the token contract then refunds it all.
     */
    method MftOnTransfer(env: Env, tokenId: string, senderId: AccountId, amount: U128, msg: string)
      returns (r: Result<U128>)
      modifies this`lockups
      ensures env.predecessor != refAddress ==> r == Err(NotRefAddress)
      ensures env.predecessor == refAddress && tokenId != TokenId(poolId) ==> r == Err(WrongToken)
      ensures env.predecessor == refAddress && tokenId == TokenId(poolId) && ParseU64(msg).None?
              ==> r == Err(InvalidDuration)
      ensures env.predecessor == refAddress && tokenId == TokenId(poolId) && ParseU64(msg).Some?
              ==> r == match Fund(old(GetLockup(senderId)), amount, ParseU64(msg).value, env.blockTimestamp)
                       case Ok(_) => Ok(0)
                       case Err(e) => Err(e)
      ensures r.Err? ==> lockups == old(lockups)
      ensures r.Ok? ==> (ParseU64(msg).Some?
              && lockups == old(lockups)[senderId :=
                   Fund(old(GetLockup(senderId)), amount, ParseU64(msg).value, env.blockTimestamp).value])
    {
      if env.predecessor != refAddress {
        return Err(NotRefAddress);
      }
      if tokenId != TokenId(poolId) {
        return Err(WrongToken);
      }
      var duration := ParseU64(msg);
      if duration.None? {
        return Err(InvalidDuration);
      }
      var funded := Fund(GetLockup(senderId), amount, duration.value, env.blockTimestamp);
      if funded.Err? {
        return Err(funded.error);
      }
      lockups := lockups[senderId := funded.value];
      return Ok(0);
    }

    /**
     * Starts the caller's withdrawal: removes the lockup and asks the token contract to transfer
     * its amount back to the caller. The returned withdrawal is what the callback is given once
     * the transfer has settled.
     */
    method Withdraw(env: Env) returns (r: Result<Withdrawal>)
      modifies this`lockups
      ensures env.attachedDeposit != ONE_YOCTO ==> r == Err(RequiresOneYocto)
      ensures env.attachedDeposit == ONE_YOCTO && !audited ==> r == Err(NotAudited)
      ensures env.attachedDeposit == ONE_YOCTO && audited && env.predecessor !in old(lockups)
              ==> r == Err(LockupNotFound)
      ensures r.Ok? <==>
              env.attachedDeposit == ONE_YOCTO && audited && env.predecessor in old(lockups)
              && ReleaseTime(old(lockups)[env.predecessor]) <= env.blockTimestamp
      ensures r.Err? ==> lockups == old(lockups)
      ensures r.Ok? ==> env.predecessor in old(lockups) && lockups == old(lockups) - {env.predecessor}
      ensures r.Ok? ==> r.value == Withdrawal(
                TransferRequest(refAddress, ONE_YOCTO, TokenId(poolId), env.predecessor,
                                old(lockups)[env.predecessor].amount, None),
                env.predecessor, old(lockups)[env.predecessor])
    {
      if env.attachedDeposit != ONE_YOCTO {
        return Err(RequiresOneYocto);
      }
      if !audited {
        return Err(NotAudited);
      }
      // The lockup is removed before the release check; an abort discards the staged map.
      var staged := lockups;
      if env.predecessor !in staged {
        return Err(LockupNotFound);
      }
      var lockup := staged[env.predecessor];
      staged := staged - {env.predecessor};
      var released := CheckReleased(lockup, env.blockTimestamp);
      if released.Fail? {
        return Err(released.error);
      }
      lockups := staged;
      var transfer := TransferRequest(refAddress, ONE_YOCTO, TokenId(poolId), env.predecessor, lockup.amount, None);
      return Ok(Withdrawal(transfer, env.predecessor, lockup));
    }

    /**
     * Completes a withdrawal once its transfer has settled. A failed transfer puts the removed
     * lockup back as it was, replacing whatever the account holds by then.
     */
    method WithdrawCallback(accountId: AccountId, lockup: Lockup, transferSucceeded: bool)
      modifies this`lockups
      ensures lockups == if transferSucceeded then old(lockups) else old(lockups)[accountId := lockup]
    {
      if !transferSucceeded {
        lockups := lockups[accountId := lockup];
      }
    }

    /** Opens withdrawals for good; only ADMIN may call it. */
    method SetAudited(env: Env) returns (r: Outcome)
      modifies this`audited
      ensures r == if env.attachedDeposit != ONE_YOCTO then Fail(RequiresOneYocto)
                   else if env.predecessor != ADMIN then Fail(NotAdmin)
                   else Pass
      ensures audited == (old(audited) || r.Pass?)
    {
      if env.attachedDeposit != ONE_YOCTO {
        return Fail(RequiresOneYocto);
      }
      if env.predecessor != ADMIN {
        return Fail(NotAdmin);
      }
      audited := true;
      return Pass;
    }
  }
}
