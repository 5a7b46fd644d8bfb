/** The ProveOwnership handler: one call proves one voucher edition. It loads
    (or lazily creates) the caller's proving process, insists the voucher is
    the one at index `proved_vouchers + 1`, checks the edition and token, and
    advances the two-level counter (editions of the current voucher, then
    vouchers) with a carry. Only the proving process is written back. */
module ProveOwnership {
  import opened Errors
  import opened SafeMath
  import opened Keys
  import opened State

  /** The accounts the handler is given, decoded, plus the rent-exemption
      status of the proving-process account. */
  datatype ProveAccounts = ProveAccounts(
    packSet: Account<PackSet>,
    edition: Account<Edition>,
    editionMint: Address,
    voucher: Account<PackVoucher>,
    proving: Account<ProvingProcess>,
    userWallet: Address,
    userToken: Account<TokenAccount>,
    provingRentExempt: bool)

  /** What the handler does to the user's token account. */
  datatype TokenEffect = Untouched | BurnedAndClosed(amount: u64)

  /** What a successful call commits: the proving process to write back, and
      the effect on the user's token. */
  datatype ProveWrites = ProveWrites(proving: ProvingProcess, token: TokenEffect)

  /** `get_proving_process_data`: an existing record is returned unchanged;
      otherwise the account must be rent-exempt and a fresh record for
      (user, pack) is initialized from its bytes. */
  function GetProvingProcessData(account: Account<ProvingProcess>, user: Address, pack: Address, rentExempt: bool)
    : (r: Result<ProvingProcess>)
    ensures account.data.Initialized? ==> r == Ok(account.data.record)
    ensures !account.data.Initialized? && !rentExempt ==> r == Err(Program(AccountNotRentExempt))
    ensures account.data.Blank? && rentExempt ==> r == Ok(InitProvingProcess(account.data.blank, user, pack))
    ensures account.data.Malformed? && rentExempt ==> r == Err(Program(InvalidAccountData))
    ensures r.Ok? && !account.data.Initialized? ==>
      r.value.user_wallet == user && r.value.pack_set == pack &&
      r.value.proved_vouchers == 0 && r.value.proved_voucher_editions == 0 &&
      r.value.next_card_to_redeem == 0 && r.value.cards_redeemed == 0
  {
    match Unpack(account.data)
    case Ok(data) => Ok(data)
    case Err(_) =>
      if !rentExempt then Err(Program(AccountNotRentExempt))
      else
        var blank :- UnpackUnchecked(account.data);
        Ok(InitProvingProcess(blank, user, pack))
  }

  /** The records the handler has loaded once its account checks pass. */
  datatype ProveContext = ProveContext(packSet: PackSet, process: ProvingProcess, voucher: PackVoucher)

  /** The checks of the handler that come before the proving process is
      read: the three owners, an activated pack set, and the proving-process
      account at the address derived from the pack set and the user. */
  predicate ProvingAddressChecked(program: Address, a: ProveAccounts)
  {
    && a.packSet.owner == program && a.edition.owner == TokenMetadataProgram && a.voucher.owner == program
    && a.packSet.data.Initialized? && a.packSet.data.record.pack_state == Activated
    && a.proving.key == ProvingAddress(program, a.packSet.key, a.userWallet)
  }

  /** The account checks and loads of the handler, in order, up to and
      including the voucher: owners, pack activation, the proving-process
      address, load-or-initialize, and the voucher address derived from
      `proved_vouchers + 1`. */
  function LoadProveAccounts(program: Address, a: ProveAccounts): (r: Result<ProveContext>)
    ensures r.Ok? ==>
      && a.packSet.owner == program && a.edition.owner == TokenMetadataProgram && a.voucher.owner == program
      && a.packSet.data == Initialized(r.value.packSet)
      && r.value.packSet.pack_state == Activated
      && a.proving.key == ProvingAddress(program, a.packSet.key, a.userWallet)
      && GetProvingProcessData(a.proving, a.userWallet, a.packSet.key, a.provingRentExempt) == Ok(r.value.process)
      && r.value.process.proved_vouchers < U32_MAX
      && a.voucher.key == VoucherAddress(program, a.packSet.key, r.value.process.proved_vouchers + 1)
      && a.voucher.data == Initialized(r.value.voucher)
    ensures r.Ok? <==>
      && ProvingAddressChecked(program, a)
      && GetProvingProcessData(a.proving, a.userWallet, a.packSet.key, a.provingRentExempt).Ok?
      && GetProvingProcessData(a.proving, a.userWallet, a.packSet.key, a.provingRentExempt).value.proved_vouchers < U32_MAX
      && a.voucher.key == VoucherAddress(program, a.packSet.key,
           GetProvingProcessData(a.proving, a.userWallet, a.packSet.key, a.provingRentExempt).value.proved_vouchers + 1)
      && a.voucher.data.Initialized?
    ensures a.packSet.owner != program ==> r == Err(Program(IllegalOwner))
    ensures a.packSet.owner == program && a.edition.owner != TokenMetadataProgram ==> r == Err(Program(IllegalOwner))
    ensures a.packSet.owner == program && a.edition.owner == TokenMetadataProgram && a.voucher.owner != program
      ==> r == Err(Program(IllegalOwner))
    ensures a.packSet.owner == program && a.edition.owner == TokenMetadataProgram && a.voucher.owner == program
      && a.packSet.data.Initialized? && a.packSet.data.record.pack_state != Activated
      ==> r == Err(Packs(PackSetNotActivated))
    ensures a.packSet.owner == program && a.edition.owner == TokenMetadataProgram && a.voucher.owner == program
      && a.packSet.data.Initialized? && a.packSet.data.record.pack_state == Activated
      && a.proving.key != ProvingAddress(program, a.packSet.key, a.userWallet)
      ==> r == Err(Program(DerivedKeyInvalid))
    ensures ProvingAddressChecked(program, a) ==>
      var got := GetProvingProcessData(a.proving, a.userWallet, a.packSet.key, a.provingRentExempt);
      (got.Err? ==> r == Err(got.error))
      && (got.Ok? && got.value.proved_vouchers == U32_MAX ==> r == Err(Packs(Overflow)))
      && (got.Ok? && got.value.proved_vouchers < U32_MAX
          && a.voucher.key != VoucherAddress(program, a.packSet.key, got.value.proved_vouchers + 1)
          ==> r == Err(Program(DerivedKeyInvalid)))
  {
    var packSetOwned := AssertOwnedBy(a.packSet, program);
    :- packSetOwned;
    :- AssertOwnedBy(a.edition, TokenMetadataProgram);
    :- AssertOwnedBy(a.voucher, program);
    var packSet :- Unpack(a.packSet.data);
    :- Need(packSet.pack_state == Activated, Packs(PackSetNotActivated));
    :- AssertDerivation(program, a.proving.key, ProvingSeeds(a.packSet.key, a.userWallet));
    var process :- GetProvingProcessData(a.proving, a.userWallet, a.packSet.key, a.provingRentExempt);
    var voucherIndex :- Increment(process.proved_vouchers, U32_MAX);
    :- AssertDerivation(program, a.voucher.key, VoucherSeeds(a.packSet.key, voucherIndex));
    var voucher :- Unpack(a.voucher.data);
    Ok(ProveContext(packSet, process, voucher))
  }

  /** Vouchers are proved in index order: once the account checks pass, the
      voucher account is the one at index `proved_vouchers + 1` and at no
      other index, so no voucher can be skipped or proved again. */
  lemma VouchersProvedInOrder(program: Address, a: ProveAccounts, index: u32)
    requires LoadProveAccounts(program, a).Ok?
    requires index != LoadProveAccounts(program, a).value.process.proved_vouchers + 1
    ensures a.voucher.key != VoucherAddress(program, a.packSet.key, index)
  {
    var next := LoadProveAccounts(program, a).value.process.proved_vouchers + 1;
    DerivationInjective(program, VoucherSeeds(a.packSet.key, next), program, VoucherSeeds(a.packSet.key, index));
  }

  /** The completion checks: a process that has proved every voucher, or
      every edition of the current voucher, is rejected. */
  function CheckProgress(process: ProvingProcess, packVouchers: u32, numberToOpen: u32): (o: Outcome)
    ensures o.Pass? <==> process.proved_vouchers != packVouchers && process.proved_voucher_editions != numberToOpen
    ensures process.proved_vouchers == packVouchers ==> o == Fail(Packs(ProvingPackProcessCompleted))
    ensures process.proved_vouchers != packVouchers && process.proved_voucher_editions == numberToOpen
      ==> o == Fail(Packs(ProvingVoucherProcessCompleted))
  {
    if process.proved_vouchers == packVouchers then Fail(Packs(ProvingPackProcessCompleted))
    else if process.proved_voucher_editions == numberToOpen then Fail(Packs(ProvingVoucherProcessCompleted))
    else Pass
  }

  /** The counter step with carry: proving the last edition of a voucher
      resets the edition count and moves on to the next voucher; any other
      edition just counts up. Every increment is checked. */
  function Advance(p: ProvingProcess, numberToOpen: u32): (r: Result<ProvingProcess>)
    ensures r.Ok? ==> r.value == p.(proved_vouchers := r.value.proved_vouchers,
                                    proved_voucher_editions := r.value.proved_voucher_editions)
    ensures r.Ok? && p.proved_voucher_editions + 1 == numberToOpen ==>
      r.value.proved_voucher_editions == 0 && r.value.proved_vouchers == p.proved_vouchers + 1
    ensures r.Ok? && p.proved_voucher_editions + 1 != numberToOpen ==>
      r.value.proved_voucher_editions == p.proved_voucher_editions + 1 && r.value.proved_vouchers == p.proved_vouchers
    ensures r.Err? <==> p.proved_voucher_editions == U32_MAX ||
                        (p.proved_voucher_editions + 1 == numberToOpen && p.proved_vouchers == U32_MAX)
    ensures r.Err? ==> r.error == Packs(Overflow)
  {
    var next :- Increment(p.proved_voucher_editions, U32_MAX);
    if next == numberToOpen then
      var proved :- Increment(p.proved_vouchers, U32_MAX);
      Ok(p.(proved_voucher_editions := 0, proved_vouchers := proved))
    else
      Ok(p.(proved_voucher_editions := next))
  }

  /** How many editions the process has proved in all, when every voucher
      asks for `numberToOpen` of them: the counter read as a two-digit number. */
  function Progress(p: ProvingProcess, numberToOpen: nat): nat {
    p.proved_vouchers * numberToOpen + p.proved_voucher_editions
  }

  /** The carry makes the counter count: each successful step adds exactly one
      proved edition. */
  lemma AdvanceCountsOne(p: ProvingProcess, numberToOpen: u32)
    requires p.proved_voucher_editions < numberToOpen
    requires Advance(p, numberToOpen).Ok?
    ensures Progress(Advance(p, numberToOpen).value, numberToOpen) == Progress(p, numberToOpen) + 1
  {
    var q := Advance(p, numberToOpen).value;
    if p.proved_voucher_editions + 1 == numberToOpen {
      calc {
        Progress(q, numberToOpen);
        (p.proved_vouchers + 1) * numberToOpen;
        p.proved_vouchers * numberToOpen + numberToOpen;
        Progress(p, numberToOpen) + 1;
      }
    }
  }

  /** The process invariant: the current voucher is not yet fully proved and
      no more vouchers are proved than the pack has. */
  predicate ProcessInvariant(p: ProvingProcess, packVouchers: u32, numberToOpen: u32) {
    p.proved_voucher_editions < numberToOpen && p.proved_vouchers <= packVouchers
  }

  /** A step that passes the completion checks cannot overflow and keeps the
      invariant; when it moves on to the next voucher it starts that voucher
      from zero editions. */
  lemma AdvanceKeepsInvariant(p: ProvingProcess, packVouchers: u32, numberToOpen: u32)
    requires ProcessInvariant(p, packVouchers, numberToOpen)
    requires CheckProgress(p, packVouchers, numberToOpen).Pass?
    ensures Advance(p, numberToOpen).Ok?
    ensures ProcessInvariant(Advance(p, numberToOpen).value, packVouchers, numberToOpen)
    ensures Advance(p, numberToOpen).value.proved_vouchers != p.proved_vouchers ==>
      Advance(p, numberToOpen).value.proved_voucher_editions == 0
  {
  }

  /** `k` successive steps on the same voucher. */
  function AdvanceTimes(p: ProvingProcess, numberToOpen: u32, k: nat): Result<ProvingProcess>
    decreases k
  {
    if k == 0 then Ok(p)
    else
      var q :- Advance(p, numberToOpen);
      AdvanceTimes(q, numberToOpen, k - 1)
  }

  /** A voucher is completed by exactly `number_to_open` successful proofs:
      from `e` proved editions, fewer than `number_to_open - e` further steps
      stay on the same voucher, and exactly that many move to the next one. */
  lemma {:induction false} VoucherNeedsNumberToOpenProofs(p: ProvingProcess, numberToOpen: u32, k: nat)
    requires p.proved_voucher_editions + k <= numberToOpen
    requires p.proved_vouchers < U32_MAX
    ensures AdvanceTimes(p, numberToOpen, k).Ok?
    ensures p.proved_voucher_editions + k < numberToOpen ==>
      AdvanceTimes(p, numberToOpen, k).value ==
        p.(proved_voucher_editions := p.proved_voucher_editions + k)
    ensures k > 0 && p.proved_voucher_editions + k == numberToOpen ==>
      AdvanceTimes(p, numberToOpen, k).value ==
        p.(proved_voucher_editions := 0, proved_vouchers := p.proved_vouchers + 1)
    decreases k
  {
    if k > 0 {
      var q := Advance(p, numberToOpen).value;
      if p.proved_voucher_editions + 1 == numberToOpen {
        assert k == 1;
        assert AdvanceTimes(q, numberToOpen, 0) == Ok(q);
      } else {
        VoucherNeedsNumberToOpenProofs(q, numberToOpen, k - 1);
      }
    }
  }

  /** The edition passed in is the one derived from the edition mint, and
      it is an edition of the voucher's master. */
  predicate EditionMatches(a: ProveAccounts, voucher: PackVoucher) {
    && a.edition.key == EditionAddress(a.editionMint)
    && a.edition.data.Initialized?
    && a.edition.data.record.parent == voucher.master
  }

  /** The user's token account holds a token of the edition mint. */
  predicate TokenMatches(a: ProveAccounts) {
    a.userToken.data.Initialized? && a.userToken.data.record.mint == a.editionMint
  }

  /** Every check of the handler before its token effect passes. */
  predicate ChecksPass(program: Address, a: ProveAccounts) {
    var ctx := LoadProveAccounts(program, a);
    && ctx.Ok?
    && CheckProgress(ctx.value.process, ctx.value.packSet.pack_vouchers, ctx.value.voucher.number_to_open).Pass?
    && EditionMatches(a, ctx.value.voucher)
    && TokenMatches(a)
  }

  /** The handler. */
  method ProveOwnershipCall(program: Address, a: ProveAccounts, burnSucceeds: bool, closeSucceeds: bool)
    returns (r: Result<ProveWrites>)
    ensures var ctx := LoadProveAccounts(program, a);
      ctx.Err? ==> r == Err(ctx.error)
    ensures var ctx := LoadProveAccounts(program, a);
      ctx.Ok? ==>
        var progress := CheckProgress(ctx.value.process, ctx.value.packSet.pack_vouchers, ctx.value.voucher.number_to_open);
        progress.Fail? ==> r == Err(progress.error)
    ensures var ctx := LoadProveAccounts(program, a);
      ctx.Ok? && CheckProgress(ctx.value.process, ctx.value.packSet.pack_vouchers, ctx.value.voucher.number_to_open).Pass?
      && a.edition.key == EditionAddress(a.editionMint)
      && a.edition.data.Initialized? && a.edition.data.record.parent != ctx.value.voucher.master
      ==> r == Err(Packs(WrongEdition))
    ensures var ctx := LoadProveAccounts(program, a);
      ctx.Ok? && CheckProgress(ctx.value.process, ctx.value.packSet.pack_vouchers, ctx.value.voucher.number_to_open).Pass?
      && a.edition.key == EditionAddress(a.editionMint)
      && a.edition.data.Initialized? && a.edition.data.record.parent == ctx.value.voucher.master
      && a.userToken.data.Initialized? && a.userToken.data.record.mint != a.editionMint
      ==> r == Err(Packs(WrongEditionMint))
    ensures var ctx := LoadProveAccounts(program, a);
      ctx.Ok? && CheckProgress(ctx.value.process, ctx.value.packSet.pack_vouchers, ctx.value.voucher.number_to_open).Pass?
      && a.edition.key != EditionAddress(a.editionMint)
      ==> r == Err(Program(DerivedKeyInvalid))
    // the burn and close calls
    ensures ChecksPass(program, a) && LoadProveAccounts(program, a).value.voucher.action_on_prove == Burn
      && !(burnSucceeds && closeSucceeds)
      ==> r == Err(Program(ExternalCallFailed))
    // once every check and external call has passed, the call succeeds
    // exactly when the counter step does
    ensures var ctx := LoadProveAccounts(program, a);
      ChecksPass(program, a) && (ctx.value.voucher.action_on_prove == Burn ==> burnSucceeds && closeSucceeds)
      ==>
        var step := Advance(ctx.value.process, ctx.value.voucher.number_to_open);
        && (r.Ok? <==> step.Ok?)
        && (step.Err? ==> r == Err(Packs(Overflow)))
    ensures r.Ok? ==>
      var ctx := LoadProveAccounts(program, a);
      && ctx.Ok?
      && CheckProgress(ctx.value.process, ctx.value.packSet.pack_vouchers, ctx.value.voucher.number_to_open).Pass?
      && a.edition.key == EditionAddress(a.editionMint)
      && a.edition.data.Initialized? && a.edition.data.record.parent == ctx.value.voucher.master
      && a.userToken.data.Initialized? && a.userToken.data.record.mint == a.editionMint
      && Advance(ctx.value.process, ctx.value.voucher.number_to_open) == Ok(r.value.proving)
      && r.value.token == (if ctx.value.voucher.action_on_prove == Burn then BurnedAndClosed(TOKEN_AMOUNT) else Untouched)
  {
    var ctx :- LoadProveAccounts(program, a);
    var packSet, process, voucher := ctx.packSet, ctx.process, ctx.voucher;

    :- CheckProgress(process, packSet.pack_vouchers, voucher.number_to_open);

    :- AssertDerivation(TokenMetadataProgram, a.edition.key, EditionSeeds(a.editionMint));
    var edition :- Unpack(a.edition.data);
    if edition.parent != voucher.master {
      return Err(Packs(WrongEdition));
    }

    var userToken :- Unpack(a.userToken.data);
    if userToken.mint != a.editionMint {
      return Err(Packs(WrongEditionMint));
    }

    var token := Untouched;
    match voucher.action_on_prove {
      case Burn =>
        :- Need(burnSucceeds, Program(ExternalCallFailed));
        :- Need(closeSucceeds, Program(ExternalCallFailed));
        token := BurnedAndClosed(TOKEN_AMOUNT);
      case Redeem =>
    }

    // `prove_ownership` increments `proved_voucher_editions` twice (once to compare,
    // once to store) and `proved_vouchers` with a checked increment that the
    // voucher-index increment in LoadProveAccounts has already shown cannot
    // overflow; the model computes each value once.
    var next :- Increment(process.proved_voucher_editions, U32_MAX);
    if next == voucher.number_to_open {
      process := process.(proved_voucher_editions := 0);
      process := process.(proved_vouchers := process.proved_vouchers + 1);
    } else {
      process := process.(proved_voucher_editions := next);
    }

    r := Ok(ProveWrites(process, token));
  }
}
