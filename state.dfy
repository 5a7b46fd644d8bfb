/** The records the proving and claim handlers read and write, as the
    handlers use them: the pack set, the voucher, the per-user proving
    process, and the foreign token account and edition records. */
module State {
  import opened Errors
  import opened SafeMath
  import opened Keys

  /** Lifecycle of a pack set; only `Activated` admits proofs and claims. */
  datatype PackSetState = NotActivated | Activated | Deactivated

  /** The pack's distribution policy. */
  datatype PackDistributionType = MaxSupply | Fixed | Unlimited

  /** The fields of `PackSet` the handlers read or write. `total_editions` is
      the pack-level supply that a draw decrements. */
  datatype PackSet = PackSet(
    pack_state: PackSetState,
    distribution_type: PackDistributionType,
    pack_vouchers: u32,
    total_weight: u64,
    total_editions: u64,
    allowed_amount_to_redeem: u32,
    redeem_start_date: u64,
    redeem_end_date: Option<u64>)

  datatype ActionOnProve = Burn | Redeem

  /** The fields of `PackVoucher` the proving handler reads. */
  datatype PackVoucher = PackVoucher(master: Address, number_to_open: u32, action_on_prove: ActionOnProve)

  /** Per-(pack, user) progress record. */
  datatype ProvingProcess = ProvingProcess(
    user_wallet: Address,
    pack_set: Address,
    voucher_mint: Address,
    proved_vouchers: u32,
    proved_voucher_editions: u32,
    next_card_to_redeem: u32,
    cards_redeemed: u32)

  /** `ProvingProcess::TOKEN_AMOUNT`: tokens burned per proved edition. */
  const TOKEN_AMOUNT: u64 := 1

  /** `ProvingProcess::init(InitProvingProcessParams { user_wallet, pack_set })`
      applied to the record read from a fresh account: binds the record to
      the user and pack and starts every counter at zero. */
  function InitProvingProcess(blank: ProvingProcess, user: Address, pack: Address): (p: ProvingProcess)
    ensures p.user_wallet == user && p.pack_set == pack && p.voucher_mint == blank.voucher_mint
    ensures p.proved_vouchers == 0 && p.proved_voucher_editions == 0
    ensures p.next_card_to_redeem == 0 && p.cards_redeemed == 0
  {
    ProvingProcess(user, pack, blank.voucher_mint, 0, 0, 0, 0)
  }

  /** The fields of an SPL token account the handlers read. */
  datatype TokenAccount = TokenAccount(mint: Address, owner: Address, delegate: Option<Address>, delegated_amount: u64)

  /** The field of a metadata-program `Edition` the proving handler reads. */
  datatype Edition = Edition(parent: Address)
}
