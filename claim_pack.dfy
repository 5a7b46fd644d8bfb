/** The ClaimPack handler: one call is one draw at the card the proving
    process points at. After its account and eligibility checks it zeroes
    `next_card_to_redeem` (the replay guard), short-circuits when a limited
    card has run out, computes the card's chance as a fixed-point fraction of
    `u16::MAX` under the pack's distribution policy, compares it with the
    oracle's value and, on a win, mints one edition and counts the draw. */
module ClaimPack {
  import opened Errors
  import opened SafeMath
  import opened Keys
  import opened State

  /** The card as the claim handler reads it: a plain `u32` supply that a
      draw decrements, and a weight. */
  datatype ClaimCard = ClaimCard(pack_set: Address, max_supply: u32, weight: u64)

  /** The accounts the handler is given, decoded where the handler decodes
      them; the metadata record is represented by its mint. */
  datatype ClaimAccounts = ClaimAccounts(
    packSet: Account<PackSet>,
    proving: Account<ProvingProcess>,
    userWallet: Address,
    userSigned: bool,
    voucherToken: Account<TokenAccount>,
    programAuthority: Address,
    card: Account<ClaimCard>,
    masterMetadataMint: Address,
    metadataMint: Address,
    masterEditionSupply: u64,
    oracleOwner: Address)

  /** What a successful call commits. On the out-of-stock path only the
      proving process is written; otherwise the pack set and card are written
      too, and `minted` is the edition number minted to the user, if any. */
  datatype ClaimWrites = ClaimWrites(
    proving: ProvingProcess,
    packSet: Option<PackSet>,
    card: Option<ClaimCard>,
    minted: Option<u64>)

  /** The records loaded once the account checks pass. */
  datatype ClaimContext = ClaimContext(packSet: PackSet, process: ProvingProcess, card: ClaimCard)

  /** The caller holds the token: as its owner, or as its delegate with a
      positive delegated amount. */
  predicate HoldsToken(token: TokenAccount, user: Address) {
    token.owner == user || (token.delegate == Some(user) && token.delegated_amount > 0)
  }

  /** The voucher-token checks: the token must be of the voucher mint bound
      to the proving process, and be held by the caller. */
  function CheckVoucherToken(token: TokenAccount, voucherMint: Address, user: Address): (o: Outcome)
    ensures o.Pass? <==> token.mint == voucherMint && HoldsToken(token, user)
    ensures token.mint != voucherMint ==> o == Fail(Packs(WrongEditionMint))
    ensures token.mint == voucherMint && !HoldsToken(token, user) ==> o == Fail(Packs(WrongVoucherOwner))
  {
    if token.mint != voucherMint then Fail(Packs(WrongEditionMint))
    else if token.owner != user then
      match token.delegate
      case Some(delegated) =>
        if token.delegated_amount == 0 || delegated != user then Fail(Packs(WrongVoucherOwner)) else Pass
      case None => Fail(Packs(WrongVoucherOwner))
    else Pass
  }

  /** The checks of the handler up to the voucher token: oracle owner,
      signer, both records readable, the proving process belonging to the
      pack set, and a readable voucher token account. */
  predicate TokenLoaded(a: ClaimAccounts)
  {
    && a.oracleOwner == RandomnessOracleProgram
    && a.userSigned
    && a.packSet.data.Initialized?
    && a.proving.data.Initialized?
    && a.packSet.key == a.proving.data.record.pack_set
    && a.voucherToken.data.Initialized?
  }

  /** The checks up to and including the voucher token itself. */
  predicate TokenChecked(a: ClaimAccounts)
  {
    && TokenLoaded(a)
    && CheckVoucherToken(a.voucherToken.data.record, a.proving.data.record.voucher_mint, a.userWallet).Pass?
  }

  /** The account checks and loads of the handler, in order: oracle owner,
      signer, pack set and proving process, the voucher token, the card at the
      address derived from `next_card_to_redeem` and belonging to the pack,
      the metadata mint and the program authority. */
  function LoadClaimAccounts(program: Address, a: ClaimAccounts): (r: Result<ClaimContext>)
    ensures r.Ok? ==>
      && a.oracleOwner == RandomnessOracleProgram
      && a.userSigned
      && a.packSet.data == Initialized(r.value.packSet)
      && a.proving.data == Initialized(r.value.process)
      && a.packSet.key == r.value.process.pack_set
      && a.voucherToken.data.Initialized?
      && a.voucherToken.data.record.mint == r.value.process.voucher_mint
      && HoldsToken(a.voucherToken.data.record, a.userWallet)
      && a.card.key == CardAddress(program, a.packSet.key, r.value.process.next_card_to_redeem)
      && a.card.data == Initialized(r.value.card)
      && r.value.card.pack_set == a.packSet.key
      && a.metadataMint == a.masterMetadataMint
      && a.programAuthority == FindProgramAddress(program, AuthoritySeeds)
    ensures r.Ok? <==>
      && TokenChecked(a)
      && a.card.key == CardAddress(program, a.packSet.key, a.proving.data.record.next_card_to_redeem)
      && a.card.data.Initialized?
      && a.card.data.record.pack_set == a.packSet.key
      && a.metadataMint == a.masterMetadataMint
      && a.programAuthority == FindProgramAddress(program, AuthoritySeeds)
    ensures a.oracleOwner != RandomnessOracleProgram ==> r == Err(Program(IllegalOwner))
    ensures a.oracleOwner == RandomnessOracleProgram && !a.userSigned ==> r == Err(Program(MissingRequiredSignature))
    ensures TokenLoaded(a) ==>
      var check := CheckVoucherToken(a.voucherToken.data.record, a.proving.data.record.voucher_mint, a.userWallet);
      check.Fail? ==> r == Err(check.error)
    ensures TokenChecked(a)
      && a.card.key != CardAddress(program, a.packSet.key, a.proving.data.record.next_card_to_redeem)
      ==> r == Err(Program(InvalidArgument))
  {
    var oracleOwned := Need(a.oracleOwner == RandomnessOracleProgram, Program(IllegalOwner));
    :- oracleOwned;
    :- Need(a.userSigned, Program(MissingRequiredSignature));
    var packSet :- Unpack(a.packSet.data);
    var process :- Unpack(a.proving.data);
    var index := process.next_card_to_redeem;
    :- AssertAccountKey(a.packSet.key, process.pack_set);
    var token :- Unpack(a.voucherToken.data);
    :- CheckVoucherToken(token, process.voucher_mint, a.userWallet);
    :- AssertAccountKey(a.card.key, CardAddress(program, a.packSet.key, index));
    var card :- Unpack(a.card.data);
    :- AssertAccountKey(a.packSet.key, card.pack_set);
    :- AssertAccountKey(a.metadataMint, a.masterMetadataMint);
    :- AssertAccountKey(a.programAuthority, FindProgramAddress(program, AuthoritySeeds));
    Ok(ClaimContext(packSet, process, card))
  }

  /** The replay guard at work: once a claim has zeroed
      `next_card_to_redeem`, a later claim passes the account checks only
      with the card derived at index 0, never a card at a real index (cards
      are numbered from 1). */
  lemma ZeroedIndexAdmitsNoRealCard(program: Address, a: ClaimAccounts, index: u32)
    requires LoadClaimAccounts(program, a).Ok?
    requires LoadClaimAccounts(program, a).value.process.next_card_to_redeem == 0
    requires index >= 1
    ensures a.card.key == CardAddress(program, a.packSet.key, 0)
    ensures a.card.key != CardAddress(program, a.packSet.key, index)
  {
    DerivationInjective(program, CardSeeds(a.packSet.key, 0), program, CardSeeds(a.packSet.key, index));
  }
  /** As written, the handler reads the proving process without asking who
      owns that account or where it lives: a call that is accepted stays
      accepted, with the same records, when the proving account is moved to
      any address and handed to any owner, so another user's record for the
      same pack set passes. */
  lemma ProvingAccountUnauthenticated(program: Address, a: ClaimAccounts, key: Address, owner: Address)
    requires LoadClaimAccounts(program, a).Ok?
    ensures LoadClaimAccounts(program, a.(proving := Account(key, owner, a.proving.data))) == LoadClaimAccounts(program, a)
  {
  }

  /** The account checks with the proving process authenticated: the account
      must belong to the program and sit at the address derived from the pack
      set and the user, which only `prove_ownership` writes. */
  function LoadClaimAccountsCorrected(program: Address, a: ClaimAccounts): (r: Result<ClaimContext>)
    ensures r.Ok? <==>
      && a.proving.owner == program
      && a.proving.key == ProvingAddress(program, a.packSet.key, a.userWallet)
      && LoadClaimAccounts(program, a).Ok?
    ensures r.Ok? ==> r == LoadClaimAccounts(program, a)
    ensures a.proving.owner != program ==> r == Err(Program(IllegalOwner))
    ensures a.proving.owner == program && a.proving.key != ProvingAddress(program, a.packSet.key, a.userWallet)
      ==> r == Err(Program(DerivedKeyInvalid))
    ensures a.proving.owner == program && a.proving.key == ProvingAddress(program, a.packSet.key, a.userWallet)
      ==> r == LoadClaimAccounts(program, a)
  {
    var provingOwned := AssertOwnedBy(a.proving, program);
    :- provingOwned;
    :- AssertDerivation(program, a.proving.key, ProvingSeeds(a.packSet.key, a.userWallet));
    LoadClaimAccounts(program, a)
  }

  /** With the corrected checks, two accepted claims read the same proving
      process exactly when they are for the same pack set and the same user:
      a user can neither borrow another user's progress nor be handed a
      second record for the same pack. */
  lemma ClaimReadsOwnRecord(program: Address, a: ClaimAccounts, b: ClaimAccounts)
    requires LoadClaimAccountsCorrected(program, a).Ok?
    requires LoadClaimAccountsCorrected(program, b).Ok?
    ensures a.proving.key == b.proving.key <==> a.packSet.key == b.packSet.key && a.userWallet == b.userWallet
  {
    DerivationInjective(program, ProvingSeeds(a.packSet.key, a.userWallet), program, ProvingSeeds(b.packSet.key, b.userWallet));
  }


  type i64 = x: int | -0x8000_0000_0000_0000 <= x < 0x8000_0000_0000_0000

  /** `clock.unix_timestamp as u64`: a two's-complement reinterpretation, so
      a negative timestamp becomes a very large one. */
  function TimestampAsU64(t: i64): (ts: u64)
    ensures t >= 0 ==> ts == t
    ensures t < 0 ==> ts >= 0x8000_0000_0000_0000 && ts - 0x1_0000_0000_0000_0000 == t
  {
    if t >= 0 then t else t + 0x1_0000_0000_0000_0000
  }

  /** The eligibility checks, in order: the pack is activated, the time lies
      in the redeem window (both ends inclusive, the end optional), and the
      user has not used up their redemptions. */
  function CheckRedeemable(packSet: PackSet, process: ProvingProcess, now: u64): (o: Outcome)
    ensures o.Pass? <==>
      && packSet.pack_state == Activated
      && packSet.redeem_start_date <= now
      && (packSet.redeem_end_date.Some? ==> now <= packSet.redeem_end_date.value)
      && process.cards_redeemed != packSet.allowed_amount_to_redeem
    ensures packSet.pack_state != Activated ==> o == Fail(Packs(PackSetNotActivated))
    ensures packSet.pack_state == Activated && now < packSet.redeem_start_date
      ==> o == Fail(Packs(WrongRedeemDate))
    ensures packSet.pack_state == Activated && packSet.redeem_end_date.Some? && now > packSet.redeem_end_date.value
      ==> o == Fail(Packs(WrongRedeemDate))
    ensures packSet.pack_state == Activated && packSet.redeem_start_date <= now
      && (packSet.redeem_end_date.Some? ==> now <= packSet.redeem_end_date.value)
      && process.cards_redeemed == packSet.allowed_amount_to_redeem
      ==> o == Fail(Packs(UserRedeemedAllCards))
  {
    if packSet.pack_state != Activated then Fail(Packs(PackSetNotActivated))
    else if now < packSet.redeem_start_date then Fail(Packs(WrongRedeemDate))
    else if packSet.redeem_end_date.Some? && now > packSet.redeem_end_date.value then Fail(Packs(WrongRedeemDate))
    else Need(process.cards_redeemed != packSet.allowed_amount_to_redeem, Packs(UserRedeemedAllCards))
  }

  lemma MulMonotone(a: nat, b: nat, c: nat)
    requires a <= b
    ensures a * c <= b * c
  {
  }

  /** A quotient of `numerator * u16::MAX` by a denominator no smaller than
      the numerator is at most `u16::MAX`. */
  lemma QuotientAtMostScale(p: nat, numerator: nat, denominator: nat)
    requires 0 < denominator && numerator <= denominator
    requires p * denominator <= numerator * U16_MAX
    ensures p <= U16_MAX
  {
    MulMonotone(numerator, denominator, U16_MAX);
    if p > U16_MAX {
      MulMonotone(U16_MAX + 1, p, denominator);
      assert false;
    }
  }

  /** `(x as u128).error_mul(u16::MAX as u128)` cannot overflow for any
      value of 64 bits or fewer. */
  lemma ScaledFitsU128(x: u64)
    ensures Mul(x, U16_MAX, U128_MAX) == Ok(x * U16_MAX)
  {
    MulMonotone(x, U64_MAX, U16_MAX);
  }

  /** The fixed-point chance `numerator * u16::MAX / denominator`, computed
      in `u128` with checked arithmetic. The multiplication always fits (see
      `ScaledFitsU128`), so only the division can fail. */
  function Probability(numerator: u64, denominator: u64): (r: Result<nat>)
    ensures r.Ok? <==> denominator > 0
    ensures r.Err? ==> r.error == Packs(Overflow)
    ensures r.Ok? ==> r.value * denominator <= numerator * U16_MAX < (r.value + 1) * denominator
    ensures r.Ok? && numerator <= denominator ==> r.value <= U16_MAX
  {
    var p :- Div(numerator * U16_MAX, denominator);
    if numerator <= denominator then
      QuotientAtMostScale(p, numerator, denominator);
      Ok(p)
    else
      Ok(p)
  }

  /** The numerator each policy weighs the card by: its remaining supply
      under `MaxSupply`, its weight otherwise. */
  function PolicyNumerator(packSet: PackSet, card: ClaimCard): u64 {
    if packSet.distribution_type == MaxSupply then card.max_supply else card.weight
  }

  /** The pack-level total the card's numerator is measured against. */
  function PolicyDenominator(packSet: PackSet): u64 {
    if packSet.distribution_type == MaxSupply then packSet.total_editions else packSet.total_weight
  }

  /** The card's chance under the pack's policy. */
  function Chance(packSet: PackSet, card: ClaimCard): Result<nat> {
    Probability(PolicyNumerator(packSet, card), PolicyDenominator(packSet))
  }

  /** The oracle value wins against a chance that could be computed when it
      does not exceed it. */
  predicate Wins(random: u16, chance: Result<nat>) {
    chance.Ok? && random <= chance.value
  }

  /** The card has run out: a limited pack with no edition of it left. */
  predicate OutOfStock(packSet: PackSet, card: ClaimCard) {
    packSet.distribution_type != Unlimited && card.max_supply == 0
  }

  /** The chance of a draw, and what the draw leaves of the pack and card. */
  datatype Draw = Draw(probability: nat, packSet: PackSet, card: ClaimCard)

  /** `count_fixed_probability` and `count_max_supply_probability`: the
      chance from the given numerator and denominator, then one edition taken
      off the pack's and the card's supply (checked). */
  method CountDepletingProbability(packSet: PackSet, card: ClaimCard, numerator: u64, denominator: u64)
    returns (r: Result<Draw>)
    ensures r.Ok? <==> denominator > 0 && packSet.total_editions > 0 && card.max_supply > 0
    ensures denominator == 0 ==> r == Err(Packs(Overflow))
    ensures denominator > 0 && packSet.total_editions == 0 ==> r == Err(Packs(Underflow))
    ensures denominator > 0 && card.max_supply == 0 ==> r == Err(Packs(Underflow))
    ensures r.Ok? ==> Probability(numerator, denominator) == Ok(r.value.probability)
    ensures r.Ok? ==> r.value.packSet == packSet.(total_editions := packSet.total_editions - 1)
    ensures r.Ok? ==> r.value.card == card.(max_supply := card.max_supply - 1)
  {
    var probability :- Probability(numerator, denominator);
    var pack, c := packSet, card;
    var totalEditions :- Decrement(pack.total_editions);
    pack := pack.(total_editions := totalEditions);
    var maxSupply :- Decrement(c.max_supply);
    c := c.(max_supply := maxSupply);
    r := Ok(Draw(probability, pack, c));
  }

  /** `count_unlimited_probability`: the chance by weight; nothing is
      depleted. */
  function CountUnlimitedProbability(packSet: PackSet, card: ClaimCard): (r: Result<Draw>)
    ensures r.Ok? <==> packSet.total_weight > 0
    ensures r.Err? ==> r.error == Packs(Overflow)
    ensures r.Ok? ==> Probability(card.weight, packSet.total_weight) == Ok(r.value.probability)
    ensures r.Ok? ==> r.value.packSet == packSet && r.value.card == card
  {
    var probability :- Probability(card.weight, packSet.total_weight);
    Ok(Draw(probability, packSet, card))
  }

  /** `get_card_probability`: dispatch on the pack's policy. `Fixed` and
      `Unlimited` weigh the card's weight against the total weight,
      `MaxSupply` its remaining supply against the pack's; `Fixed` and
      `MaxSupply` take one edition off both supplies, `Unlimited` neither. */
  method GetCardProbability(packSet: PackSet, card: ClaimCard) returns (r: Result<Draw>)
    ensures r.Ok? <==>
      && PolicyDenominator(packSet) > 0
      && (packSet.distribution_type != Unlimited ==> packSet.total_editions > 0 && card.max_supply > 0)
    ensures r.Ok? ==> Probability(PolicyNumerator(packSet, card), PolicyDenominator(packSet)) == Ok(r.value.probability)
    ensures PolicyDenominator(packSet) == 0 ==> r == Err(Packs(Overflow))
    ensures PolicyDenominator(packSet) > 0 && packSet.distribution_type != Unlimited ==>
      (packSet.total_editions == 0 || card.max_supply == 0) ==> r == Err(Packs(Underflow))
    ensures r.Ok? && packSet.distribution_type == Unlimited ==>
      r.value.packSet == packSet && r.value.card == card
    ensures r.Ok? && packSet.distribution_type != Unlimited ==>
      && r.value.packSet == packSet.(total_editions := packSet.total_editions - 1)
      && r.value.card == card.(max_supply := card.max_supply - 1)
  {
    match packSet.distribution_type {
      case Fixed =>
        r := CountDepletingProbability(packSet, card, card.weight, packSet.total_weight);
      case MaxSupply =>
        r := CountDepletingProbability(packSet, card, card.max_supply, packSet.total_editions);
      case Unlimited =>
        r := CountUnlimitedProbability(packSet, card);
    }
  }

  /** When the card's numerator does not exceed the pack's denominator, the
      chance lies in [0, u16::MAX]; a zero denominator is an error. */
  lemma ProbabilityInRange(packSet: PackSet, card: ClaimCard)
    ensures PolicyDenominator(packSet) == 0 ==>
      Probability(PolicyNumerator(packSet, card), PolicyDenominator(packSet)) == Err(Packs(Overflow))
    ensures PolicyNumerator(packSet, card) <= PolicyDenominator(packSet) && PolicyDenominator(packSet) > 0 ==>
      var p := Probability(PolicyNumerator(packSet, card), PolicyDenominator(packSet));
      p.Ok? && p.value <= U16_MAX
  {
  }

  /** A card holding the whole weight of a `Fixed` or `Unlimited` pack is
      certain to be won: its chance is `u16::MAX`, and every oracle value
      wins against it. */
  lemma WholeWeightIsCertain(packSet: PackSet, card: ClaimCard)
    requires packSet.distribution_type != MaxSupply
    requires 0 < card.weight == packSet.total_weight
    ensures Chance(packSet, card) == Ok(U16_MAX)
    ensures forall random: u16 :: Wins(random, Chance(packSet, card))
  {
    var p := Chance(packSet, card).value;
    var w := card.weight;
    assert p * w <= w * U16_MAX < (p + 1) * w;
    QuotientAtMostScale(p, w, w);
    if p < U16_MAX {
      MulMonotone(p + 1, U16_MAX, w);
      assert false;
    }
  }

  /** A `MaxSupply` draw keeps the card's remaining supply within the
      pack's, so the next draw's chance stays in range. */
  lemma MaxSupplyDrawKeepsBalance(packSet: PackSet, card: ClaimCard)
    requires packSet.distribution_type == MaxSupply
    requires 0 < card.max_supply <= packSet.total_editions
    ensures var next := (packSet.(total_editions := packSet.total_editions - 1), card.(max_supply := card.max_supply - 1));
      PolicyNumerator(next.0, next.1) <= PolicyDenominator(next.0)
    ensures var p := Probability(PolicyNumerator(packSet, card), PolicyDenominator(packSet));
      p.Ok? && p.value <= U16_MAX
  {
  }

  /** The account and eligibility checks pass and the card is in stock, so
      the handler draws. */
  predicate Draws(program: Address, a: ClaimAccounts, unixTimestamp: i64) {
    var ctx := LoadClaimAccountsCorrected(program, a);
    && ctx.Ok?
    && CheckRedeemable(ctx.value.packSet, ctx.value.process, TimestampAsU64(unixTimestamp)).Pass?
    && !OutOfStock(ctx.value.packSet, ctx.value.card)
  }

  /** The handler. */
  method ClaimPackCall(program: Address, a: ClaimAccounts, unixTimestamp: i64, random: u16, mintSucceeds: bool)
    returns (r: Result<ClaimWrites>)
    // failures of the account checks and eligibility checks, in order
    ensures var ctx := LoadClaimAccountsCorrected(program, a);
      ctx.Err? ==> r == Err(ctx.error)
    ensures var ctx := LoadClaimAccountsCorrected(program, a);
      ctx.Ok? ==>
        var eligible := CheckRedeemable(ctx.value.packSet, ctx.value.process, TimestampAsU64(unixTimestamp));
        eligible.Fail? ==> r == Err(eligible.error)
    // the replay guard: every success persists next_card_to_redeem == 0 and
    // otherwise changes the proving process in cards_redeemed only
    ensures r.Ok? ==>
      var ctx := LoadClaimAccountsCorrected(program, a);
      && ctx.Ok?
      && CheckRedeemable(ctx.value.packSet, ctx.value.process, TimestampAsU64(unixTimestamp)).Pass?
      && r.value.proving.next_card_to_redeem == 0
      && r.value.proving == ctx.value.process.(next_card_to_redeem := 0, cards_redeemed := r.value.proving.cards_redeemed)
    // the out-of-stock short-circuit
    ensures var ctx := LoadClaimAccountsCorrected(program, a);
      ctx.Ok? && CheckRedeemable(ctx.value.packSet, ctx.value.process, TimestampAsU64(unixTimestamp)).Pass?
      && OutOfStock(ctx.value.packSet, ctx.value.card)
      ==> r == Ok(ClaimWrites(ctx.value.process.(next_card_to_redeem := 0), None, None, None))
    // a call that passes its checks with the card in stock draws: it
    // succeeds exactly when the chance and the supply decrements can be
    // computed and, on a win, the edition number, the mint and the redeemed
    // count can be too; each failure has its error
    ensures Draws(program, a, unixTimestamp) ==>
      var ctx := LoadClaimAccountsCorrected(program, a).value;
      var chance := Chance(ctx.packSet, ctx.card);
      var depletes := ctx.packSet.distribution_type != Unlimited;
      var drawn := chance.Ok? && (depletes ==> ctx.packSet.total_editions > 0);
      && (r.Ok? ==> r.value.packSet.Some?)
      && (PolicyDenominator(ctx.packSet) == 0 ==> r == Err(Packs(Overflow)))
      && (chance.Ok? && depletes && ctx.packSet.total_editions == 0 ==> r == Err(Packs(Underflow)))
      && (r.Ok? <==> drawn && (Wins(random, chance) ==>
            a.masterEditionSupply < U64_MAX && mintSucceeds && ctx.process.cards_redeemed < U32_MAX))
      && (drawn && Wins(random, chance) && a.masterEditionSupply == U64_MAX ==> r == Err(Packs(Overflow)))
      && (drawn && Wins(random, chance) && a.masterEditionSupply < U64_MAX && !mintSucceeds ==>
            r == Err(Program(ExternalCallFailed)))
    // a draw: the pack and card are written as the policy leaves them, and
    // the user wins exactly when the oracle value is within the chance
    ensures r.Ok? && r.value.packSet.Some? ==>
      var ctx := LoadClaimAccountsCorrected(program, a).value;
      var chance := Chance(ctx.packSet, ctx.card);
      && Draws(program, a, unixTimestamp)
      && chance.Ok?
      && (ctx.packSet.distribution_type != Unlimited ==>
            ctx.packSet.total_editions > 0 && ctx.card.max_supply > 0
            && r.value.packSet == Some(ctx.packSet.(total_editions := ctx.packSet.total_editions - 1))
            && r.value.card == Some(ctx.card.(max_supply := ctx.card.max_supply - 1)))
      && (ctx.packSet.distribution_type == Unlimited ==>
            r.value.packSet == Some(ctx.packSet) && r.value.card == Some(ctx.card))
      && (r.value.minted.Some? <==> Wins(random, chance))
      && (r.value.minted.Some? ==> r.value.minted.value == a.masterEditionSupply + 1)
      && r.value.proving.cards_redeemed == ctx.process.cards_redeemed + (if random <= chance.value then 1 else 0)
    ensures r.Ok? && r.value.packSet.None? ==>
      var ctx := LoadClaimAccountsCorrected(program, a).value;
      OutOfStock(ctx.packSet, ctx.card) && r.value.card.None? && r.value.minted.None? &&
      r.value.proving.cards_redeemed == LoadClaimAccountsCorrected(program, a).value.process.cards_redeemed
    // the per-user cap is kept
    ensures r.Ok? ==>
      var ctx := LoadClaimAccountsCorrected(program, a).value;
      ctx.process.cards_redeemed <= ctx.packSet.allowed_amount_to_redeem ==>
        r.value.proving.cards_redeemed <= ctx.packSet.allowed_amount_to_redeem
  {
    var ctx :- LoadClaimAccountsCorrected(program, a);
    var packSet, process, card := ctx.packSet, ctx.process, ctx.card;

    var now := TimestampAsU64(unixTimestamp);
    :- CheckRedeemable(packSet, process, now);

    // Zeroed before anything else is computed, so that no card index can be
    // drawn twice with one proof.
    process := process.(next_card_to_redeem := 0);

    if OutOfStock(packSet, card) {
      return Ok(ClaimWrites(process, None, None, None));
    }

    var draw :- GetCardProbability(packSet, card);
    packSet, card := draw.packSet, draw.card;

    var minted := None;
    if random <= draw.probability {
      var edition :- Increment(a.masterEditionSupply, U64_MAX);
      :- Need(mintSucceeds, Program(ExternalCallFailed));
      minted := Some(edition);
      var redeemed :- Increment(process.cards_redeemed, U32_MAX);
      process := process.(cards_redeemed := redeemed);
    }

    r := Ok(ClaimWrites(process, Some(packSet), Some(card), minted));
  }
}
