/**
 * Client code that drives a contract through the withdrawal protocol and through the worked
 * examples of funding, stating what callers can rely on from the contract's contracts alone.
 */
module Scenarios {
  import opened Uints
  import opened Options
  import opened DecimalText
  import opened Lockups

  /**
   * A withdrawal followed by its callback. After a successful transfer the caller's lockup is
   * gone; after a failed one the compensating reinsertion restores the ledger exactly as it was
   * before the withdrawal, provided nothing else ran in between.
   */
  method WithdrawAndSettle(c: LockupContract, env: Env, transferSucceeded: bool)
    returns (w: Result<Withdrawal>)
    modifies c
    ensures c.audited == old(c.audited)
    ensures w.Err? ==> c.lockups == old(c.lockups)
    ensures w.Ok? ==> env.predecessor in old(c.lockups)
                      && w.value.transfer.amount == old(c.lockups)[env.predecessor].amount
    ensures w.Ok? && transferSucceeded ==> c.GetLockup(env.predecessor) == None
    ensures w.Ok? && transferSucceeded ==> c.lockups == old(c.lockups) - {env.predecessor}
    ensures w.Ok? && !transferSucceeded ==> c.lockups == old(c.lockups)
  {
    w := c.Withdraw(env);
    if w.Ok? {
      c.WithdrawCallback(w.value.accountId, w.value.lockup, transferSucceeded);
    }
  }

  /**
   * Funding, merging and the extend-only rule on concrete values. 500 shares locked for 1 s at
   * block time 2000 release at 1,000,002,000. Adding 300 for 0.5 s at block time 3000 would
   * release at 500,003,000, earlier, so that deposit is rejected and the lockup stays as it was.
   * The same deposit at block time 600,000,000 releases at 1,100,000,000 and is merged.
   */
  method FundingExample() returns (first: Option<Lockup>, early: Result<U128>,
                                   afterEarly: Option<Lockup>, merged: Option<Lockup>)
    ensures first == Some(Lockup(500, 1_000_000_000, 2000))
    ensures early == Err(ReleaseMovedEarlier)
    ensures afterEarly == first
    ensures merged == Some(Lockup(800, 500_000_000, 600_000_000))
  {
    var c := new LockupContract(7, "ref.near");
    var token := TokenId(7);
    ParseDecimal(1_000_000_000);
    ParseDecimal(500_000_000);
    var second, halfSecond := Decimal(1_000_000_000), Decimal(500_000_000);
    var r := c.MftOnTransfer(Env("ref.near", 0, 2000), token, "alice.near", 500, second);
    first := c.GetLockup("alice.near");
    assert first == Some(Lockup(500, 1_000_000_000, 2000));
    early := c.MftOnTransfer(Env("ref.near", 0, 3000), token, "alice.near", 300, halfSecond);
    afterEarly := c.GetLockup("alice.near");
    r := c.MftOnTransfer(Env("ref.near", 0, 600_000_000), token, "alice.near", 300, halfSecond);
    merged := c.GetLockup("alice.near");
  }

  /** An audited contract for pool 7 holding alice.near's 500 shares, locked for 1000 ns from 2000. */
  method AuditedWithOneLockup() returns (c: LockupContract)
    ensures fresh(c) && c.audited
    ensures c.poolId == 7 && c.refAddress == "ref.near"
    ensures c.lockups == map["alice.near" := Lockup(500, 1000, 2000)]
  {
    c := new LockupContract(7, "ref.near");
    ParseDecimal(1000);
    var msg := Decimal(1000);
    var funded := c.MftOnTransfer(Env("ref.near", 0, 2000), TokenId(7), "alice.near", 500, msg);
    var audit := c.SetAudited(Env(ADMIN, ONE_YOCTO, 2500));
  }

  /**
   * The race the withdrawal callback leaves open: an account withdraws, registers again while
   * the transfer is in flight, and the transfer then fails. The rollback puts the old lockup
   * back over the new registration, which is lost.
   */
  method RollbackOverwritesInterimRegistration() returns (interim: Option<Lockup>, restored: Option<Lockup>)
    ensures interim == Some(Lockup(0, 0, 9000))
    ensures restored == Some(Lockup(500, 1000, 2000))
  {
    var c := AuditedWithOneLockup();
    var w := c.Withdraw(Env("alice.near", ONE_YOCTO, 5000));
    var registered := c.RegisterLockup(Env("alice.near", STORAGE_DEPOSIT, 9000));
    interim := c.GetLockup("alice.near");
    c.WithdrawCallback(w.value.accountId, w.value.lockup, false);
    restored := c.GetLockup("alice.near");
  }
}
