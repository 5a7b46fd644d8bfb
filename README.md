# nft-packs redemption core in Dafny

This project models the redemption logic of the Metaplex `nft-packs` Solana program. A user buys a pack; proves ownership of the pack's voucher editions one at a time; and then claims cards, one random draw per claim. The model is a pure state-transition model over plain records. Each instruction handler is a method. It takes the decoded accounts and the external inputs (clock, oracle value, outcome of the cross-program calls) and returns either an error or the records it writes back.

The modules follow the program's structure:

| module | file | models |
|---|---|---|
| `Errors` | errors.dfy | the `NFTPacksError` enum, its numeric codes, `ProgramError`, and the `Result`/`Outcome` plumbing |
| `SafeMath` | safe_math.dfy | fixed-width unsigned types and the checked `error_increment` / `error_decrement` / `error_mul` / `error_div` |
| `Keys` | keys.dfy | program-derived addresses as an injective function of the seeds; account ownership, key and unpack checks |
| `State` | state.dfy | the `PackSet`, `PackVoucher`, `ProvingProcess`, token-account and edition records, as the handlers read them |
| `Borsh` | borsh.dfy | the parts of the Borsh format the `PackCard` layout uses |
| `PackCardState` | pack_card.dfy | `PackCard`, `init`, `is_initialized`, and its 147-byte account layout |
| `ProveOwnership` | prove_ownership.dfy | the `prove_ownership` handler and `get_proving_process_data` |
| `ClaimPack` | claim_pack.dfy | the `claim_pack` handler and the probability functions |

## Model

| member | source | states |
|---|---|---|
| Errors.Code | rust/nft-packs/src/error.rs:14-102 | every declared error's code is its 0-based declaration position, below 22 |
| Errors.FromCode | rust/nft-packs/src/error.rs:13 | the derived `FromPrimitive` decode: a code decodes to a variant exactly when it is below 22, and then to the variant declared at that position |
| Errors.CodeInjective | rust/nft-packs/src/error.rs:104-108 | distinct declared errors have distinct codes |
| Errors.DecodeCode | rust/nft-packs/src/error.rs:13-108 | decoding the code of any declared error gives that error back |
| Errors.CodeDecode | rust/nft-packs/src/error.rs:13-108 | every code below 22 decodes to an error whose code is that number; codes of 22 and above decode to nothing |
| Errors.ArithmeticCodes | rust/nft-packs/src/error.rs:59-65 | `Overflow` has code 11 and `Underflow` has code 12 |
| Errors.ToProgramError | rust/nft-packs/src/error.rs:104-108 | the conversion to `ProgramError` is `Custom(code)`, and that code decodes back to the original error |
| Errors.Need | rust/nft-packs/src/processor/claim_pack.rs:63-65 | a guard passes exactly when its condition holds, and otherwise fails with the given error |
| SafeMath.Increment | rust/nft-packs/src/processor/prove_ownership.rs:131-136 | `error_increment` succeeds exactly below the type's maximum, with the value plus one; at the maximum it fails with `Overflow` |
| SafeMath.Decrement | rust/nft-packs/src/processor/claim_pack.rs:190-192 | `error_decrement` succeeds exactly above zero, with the value minus one; at zero it fails with `Underflow` |
| SafeMath.Mul | rust/nft-packs/src/processor/claim_pack.rs:189 | `error_mul` succeeds exactly when the product fits the type, with the product; otherwise it fails with `Overflow` |
| SafeMath.Div | rust/nft-packs/src/processor/claim_pack.rs:189 | `error_div` succeeds exactly for a non-zero divisor, with the truncated quotient; a zero divisor fails with `Overflow` instead of panicking |
| Keys.FindProgramAddress | rust/nft-packs/src/processor/claim_pack.rs:77-78 | a derived address is owned by the deriving program's namespace and determined by its seeds |
| Keys.DerivationInjective | rust/nft-packs/src/processor/claim_pack.rs:77-82 | two derivations give the same address exactly when the program and the seeds agree |
| Keys.Unpack | rust/nft-packs/src/processor/prove_ownership.rs:43 | `Pack::unpack` returns the record of an initialized account; it fails with `UninitializedAccount` on a blank one and `InvalidAccountData` on malformed bytes |
| Keys.UnpackUnchecked | rust/nft-packs/src/processor/prove_ownership.rs:157 | `unpack_unchecked` also accepts a blank account, returning its record |
| Keys.AssertOwnedBy | rust/nft-packs/src/processor/prove_ownership.rs:39-41 | passes exactly when the account has the expected owner; otherwise `IllegalOwner` |
| Keys.AssertAccountKey | rust/nft-packs/src/processor/claim_pack.rs:60 | passes exactly when the key is the expected one; otherwise `InvalidArgument` |
| Keys.AssertDerivation | rust/nft-packs/src/processor/prove_ownership.rs:49-57 | passes exactly when the key is derived from the given seeds; otherwise `DerivedKeyInvalid` |
| State.InitProvingProcess | rust/nft-packs/src/processor/prove_ownership.rs:157-162 | a fresh proving process is bound to the user and the pack, with every counter at zero |
| Borsh.LittleEndianRoundTrip | rust/nft-packs/src/state/pack_card.rs:46-48 | reading an n-byte little-endian encoding gives the encoded integer back |
| Borsh.ReadUintWritten | rust/nft-packs/src/state/pack_card.rs:46-48 | reading an integer from its encoding followed by any bytes gives the integer and exactly those bytes |
| Borsh.ReadPubkeyWritten | rust/nft-packs/src/state/pack_card.rs:34-40 | reading a public key from its 32 bytes followed by any bytes gives the key and exactly those bytes |
| Borsh.ReadTagWritten | rust/nft-packs/src/state/pack_card.rs:32 | a one-byte enum tag below the variant count reads back as itself |
| Borsh.ReadOptionU32Written | rust/nft-packs/src/state/pack_card.rs:42 | an `Option<u32>` (presence byte, then four bytes when present) reads back as itself |
| Borsh.WriteOptionU32 | rust/nft-packs/src/state/pack_card.rs:42 | the encoding of an `Option<u32>` is 5 bytes when present and 1 byte when absent |
| PackCardState.IsInitializedExactly | rust/nft-packs/src/state/pack_card.rs:103-108 | `is_initialized` holds exactly when the account type is `PackCard` |
| PackCardState.DefaultCardIsBlank | rust/nft-packs/src/state/pack_card.rs:21-29 | the default card is not initialized, and the default distribution type is `FixedNumber` |
| PackCardState.Init | rust/nft-packs/src/state/pack_card.rs:53-63 | `init` makes the card initialized, copies the seven parameter fields unchanged, and sets `current_supply` to 0 |
| PackCardState.Serialize | rust/nft-packs/src/state/pack_card.rs:86-88 | the encoding is `LEN` = 147 bytes when `max_supply` is present, and 4 bytes fewer otherwise |
| PackCardState.DeserializeSerialized | rust/nft-packs/src/state/pack_card.rs:27-49 | reading the field-by-field encoding of any card from the front of any bytes gives the card and the bytes after it |
| PackCardState.SerializeRoundTrip | rust/nft-packs/src/state/pack_card.rs:90-100 | decoding the encoding of any card with `try_from_slice` gives the same card |
| PackCardState.TryFromSlice | rust/nft-packs/src/state/pack_card.rs:96 | `try_from_slice` succeeds exactly when a card decodes from the front and uses every byte, and then returns that card |
| PackCardState.UnpackFromSlice | rust/nft-packs/src/state/pack_card.rs:95-100 | `unpack_from_slice` succeeds exactly when `try_from_slice` does, and reports any failure as `InvalidAccountData` |
| PackCardState.PackIntoSlice | rust/nft-packs/src/state/pack_card.rs:90-93 | packing writes the encoding over the front of the 147-byte account; the length is unchanged and the bytes after the encoding keep their old values |
| PackCardState.Unpack | rust/nft-packs/src/state/pack_card.rs:86-108 | `Pack::unpack` succeeds exactly on a 147-byte account that `try_from_slice` decodes to an initialized card, and returns that card; a wrong length or a failed decode is `InvalidAccountData`, and a decoded card that is not initialized is `UninitializedAccount` |
| PackCardState.AccountRoundTripWithMaxSupply | rust/nft-packs/src/state/pack_card.rs:86-108 | an initialized card with a maximum supply survives a store and load through its account |
| PackCardState.StoredCardWithoutMaxSupplyIsUnreadable | rust/nft-packs/src/state/pack_card.rs:90-100 | as written, a stored card without a maximum supply always unpacks to `InvalidAccountData` |
| PackCardState.UnpackFromSlicePrefix | rust/nft-packs/src/state/pack_card.rs:95-100 | the corrected `unpack_from_slice` decodes the record at the front of the account, and reports any failure as `InvalidAccountData` |
| PackCardState.UnpackCorrected | rust/nft-packs/src/state/pack_card.rs:86-108 | the corrected `Pack::unpack` succeeds exactly on a 147-byte account whose front decodes to an initialized card, and returns that card; its errors are those of `Pack::unpack` |
| PackCardState.AccountRoundTrip | rust/nft-packs/src/state/pack_card.rs:86-108 | with the corrected unpack, every initialized card survives a store and load, whatever the account held before |
| ProveOwnership.GetProvingProcessData | rust/nft-packs/src/processor/prove_ownership.rs:145-168 | load-or-initialize: an existing record is returned unchanged; otherwise the account must be rent-exempt, and a fresh record for (user, pack) starts with every counter at zero |
| ProveOwnership.LoadProveAccounts | rust/nft-packs/src/processor/prove_ownership.rs:39-79 | the loads succeed exactly when the three owners are right, the pack set is readable and `Activated`, the proving process lives at the address derived from pack set and user and loads, `proved_vouchers` is below `u32::MAX`, and the voucher is readable at the address derived from `proved_vouchers + 1`; the errors come in source order: `IllegalOwner` for each owner, `PackSetNotActivated`, `DerivedKeyInvalid` for the proving address, the proving-process load error, `Overflow` when `proved_vouchers` is `u32::MAX`, and `DerivedKeyInvalid` for the voucher address |
| ProveOwnership.VouchersProvedInOrder | rust/nft-packs/src/processor/prove_ownership.rs:66-77 | once the account checks pass, the voucher is at no index other than `proved_vouchers + 1`, so vouchers cannot be skipped or proved twice |
| ProveOwnership.CheckProgress | rust/nft-packs/src/processor/prove_ownership.rs:81-87 | passes exactly when neither count is complete; `ProvingPackProcessCompleted` takes precedence over `ProvingVoucherProcessCompleted` |
| ProveOwnership.Advance | rust/nft-packs/src/processor/prove_ownership.rs:131-137 | the carry: on the voucher's last edition, editions reset to 0 and `proved_vouchers` rises by exactly 1; otherwise editions rise by 1; nothing else changes; it fails with `Overflow` exactly when a counter is at its maximum |
| ProveOwnership.AdvanceCountsOne | rust/nft-packs/src/processor/prove_ownership.rs:131-137 | every successful step adds exactly one to the total of proved editions |
| ProveOwnership.AdvanceKeepsInvariant | rust/nft-packs/src/processor/prove_ownership.rs:81-87 | after the completion checks a step cannot fail, and it keeps `proved_voucher_editions < number_to_open` and `proved_vouchers <= pack_vouchers` |
| ProveOwnership.VoucherNeedsNumberToOpenProofs | rust/nft-packs/src/processor/prove_ownership.rs:131-137 | a voucher is completed by exactly `number_to_open` proofs; fewer stay on the same voucher |
| ProveOwnership.ProveOwnershipCall | rust/nft-packs/src/processor/prove_ownership.rs:39-141 | load and completion errors propagate; an edition not derived from the edition mint is `DerivedKeyInvalid`, a wrong edition parent is `WrongEdition` and a wrong token mint is `WrongEditionMint`; a failed burn or close of a `Burn` voucher is `ExternalCallFailed`; once every check and call has passed, the call succeeds exactly when the counter step does (otherwise `Overflow`) and writes back the advanced process; `Burn` burns `TOKEN_AMOUNT` and closes the token, while `Redeem` leaves it untouched |
| ClaimPack.CheckVoucherToken | rust/nft-packs/src/processor/claim_pack.rs:62-74 | passes exactly when the token is of the voucher mint and the caller owns it, or is its delegate with a positive delegated amount; otherwise `WrongEditionMint` or `WrongVoucherOwner`, in that order |
| ClaimPack.LoadClaimAccounts | rust/nft-packs/src/processor/claim_pack.rs:51-91 | the checks pass exactly when the oracle owner is right, the caller signed, pack set and proving process are readable and belong together, the voucher token is readable and passes the token checks, the card is readable at the address derived from `next_card_to_redeem` and belongs to the pack, and the metadata mint and program authority match; a wrong oracle owner gives `IllegalOwner`, a missing signature `MissingRequiredSignature`, a failed token check its own error, and a card at another address `InvalidArgument` |
| ClaimPack.ProvingAccountUnauthenticated | rust/nft-packs/src/processor/claim_pack.rs:56-60 | as written, an accepted call stays accepted with the same records when the proving-process account has any other owner and any other address |
| ClaimPack.LoadClaimAccountsCorrected | rust/nft-packs/src/processor/claim_pack.rs:51-91 | the checks pass exactly when the proving-process account is owned by the program, sits at the address derived from pack set and user, and the handler's own checks pass, with the same records; a foreign owner gives `IllegalOwner` and another address `DerivedKeyInvalid` |
| ClaimPack.ClaimReadsOwnRecord | rust/nft-packs/src/processor/claim_pack.rs:56-60 | with the corrected checks, two accepted claims read the same proving-process account exactly when they are for the same pack set and the same user |
| ClaimPack.ZeroedIndexAdmitsNoRealCard | rust/nft-packs/src/processor/claim_pack.rs:58-114 | a claim that loads a proving-process record whose `next_card_to_redeem` is 0 can only use the card at index 0, never a card at a real index |
| ClaimPack.TimestampAsU64 | rust/nft-packs/src/processor/claim_pack.rs:95 | the cast of the signed timestamp keeps a non-negative timestamp and wraps a negative one modulo 2^64 |
| ClaimPack.CheckRedeemable | rust/nft-packs/src/processor/claim_pack.rs:93-111 | passes exactly when the pack is activated, the time lies within the inclusive redeem window, and the user has not reached the cap; each failure has its own error, in source order |
| ClaimPack.QuotientAtMostScale | rust/nft-packs/src/processor/claim_pack.rs:189 | a quotient of `n * 65535` by a divisor no smaller than `n` is at most 65535 |
| ClaimPack.ScaledFitsU128 | rust/nft-packs/src/processor/claim_pack.rs:189 | scaling any 64-bit numerator by `u16::MAX` cannot overflow `u128` |
| ClaimPack.Probability | rust/nft-packs/src/processor/claim_pack.rs:185-218 | the chance is the floor of `numerator * 65535 / denominator`; it fails with `Overflow` exactly on a zero denominator; it is at most 65535 when the numerator does not exceed the denominator |
| ClaimPack.CountDepletingProbability | rust/nft-packs/src/processor/claim_pack.rs:185-209 | fixed and max-supply counting give the chance, then take exactly one edition off the pack and off the card (checked, `Underflow` at zero) |
| ClaimPack.CountUnlimitedProbability | rust/nft-packs/src/processor/claim_pack.rs:211-218 | unlimited counting gives the chance by weight and changes neither pack nor card |
| ClaimPack.GetCardProbability | rust/nft-packs/src/processor/claim_pack.rs:162-183 | the policy dispatch: `Fixed` and `Unlimited` use `weight / total_weight`, `MaxSupply` uses `max_supply / total_editions`; `Fixed` and `MaxSupply` decrement both supplies once, `Unlimited` neither; success exactly when the denominator and the depleted supplies are non-zero |
| ClaimPack.ProbabilityInRange | rust/nft-packs/src/processor/claim_pack.rs:162-218 | a zero policy denominator is an `Overflow` error; a numerator no larger than the denominator gives a chance in [0, 65535] |
| ClaimPack.WholeWeightIsCertain | rust/nft-packs/src/processor/claim_pack.rs:185-218 | a card that holds the whole (non-zero) weight of a `Fixed` or `Unlimited` pack has chance exactly 65535, so every oracle value wins the draw (the win rule of `ClaimPack.ClaimPackCall`) |
| ClaimPack.MaxSupplyDrawKeepsBalance | rust/nft-packs/src/processor/claim_pack.rs:198-209 | a `MaxSupply` draw keeps the card's supply within the pack's, so the chance stays in range |
| ClaimPack.ClaimPackCall | rust/nft-packs/src/processor/claim_pack.rs:51-157 | check errors (those of `ClaimPack.LoadClaimAccountsCorrected`, then eligibility) propagate in order; every success persists `next_card_to_redeem == 0` and changes nothing else in the proving process except `cards_redeemed`; an out-of-stock card writes only the proving process; otherwise the pack and card are written as the policy leaves them; a call whose checks pass with the card in stock draws: it succeeds exactly when the chance and the supply decrements can be computed and, on a win, the edition number, the mint and the `cards_redeemed` increment succeed, with `Overflow` for a zero denominator or a full edition supply, `Underflow` for an empty pack and `ExternalCallFailed` for a failed mint; the user wins exactly when the oracle value is at most the chance; a win mints edition `supply + 1` and adds exactly 1 to `cards_redeemed`, and a loss leaves it unchanged; the per-user cap is kept |

## Left out

- Cross-program calls are inputs, not models: `burn_tokens` and `close_token_account` appear as the booleans `burnSucceeds` and `closeSucceeds`; the metadata mint appears as `mintSucceeds`; any failure yields `ExternalCallFailed`. `assert_rent_exempt` is the boolean `provingRentExempt`.
- The randomness oracle (`get_random_oracle_value`) is the `random: u16` parameter. Its own failure modes are not modelled.
- The `Clock` sysvar is the `unixTimestamp` parameter.
- `find_program_address` hashing is a datatype constructor over the seeds. It is injective by construction; bump seeds and the off-curve search are not modelled.
- The foreign `Edition` and SPL token account records are reduced to the fields the handlers read; their deserialization is an `AccountData` value that is initialized, blank or malformed.
- The claim handler's `Metadata` and `MasterEditionV2` records are reduced to the metadata mint (an `Address`) and the master edition supply (a `u64`). The failures of their `from_account_info` deserialization (claim_pack.rs lines 85 and 87) are not modelled.
- `processor.rs` routes `ClaimPack` to `unimplemented!()`. The claim handler is modelled on its own, and the dispatch table is not part of this model.
- `instruction.rs` (instruction builders and wire encoding) is not part of this model.
- The state module's other records (`AccountType`, `PackSet`, `PackVoucher`, `ProvingProcess`), the `utils` helpers and the `SafeMath` trait are not part of this model. Their behaviour is assumed as follows:
  - `AccountType` tags are in the order `Uninitialized`, `PackSet`, `PackCard`, `PackVoucher`, `ProvingProcess`.
  - `ProvingProcess::init` zeroes the counters.
  - `assert_account_key` fails with `InvalidArgument` and `assert_derivation` with `DerivedKeyInvalid`.
  - `assert_owned_by` fails with `IllegalOwner`, `assert_signer` with `MissingRequiredSignature` and `assert_rent_exempt` with `AccountNotRentExempt`.
  - `PackSet::assert_activated` fails with `PackSetNotActivated`.
  - `ProvingProcess::TOKEN_AMOUNT` is 1.
  - `error_div` by zero fails with `Overflow`.
  - `decrement_supply` takes one off the pack's `total_editions` and the card's `max_supply`.
  - The state of a pack set is one of `NotActivated`, `Activated`, `Deactivated`.
- The claim handler reads a card with a plain `u32` `max_supply` and a `weight`. The `PackCard` in `state/pack_card.rs` has `max_supply: Option<u32>` and no `weight`. So `ClaimPack.ClaimCard` (the claim view) and `PackCardState.Card` (the stored record) are kept as two separate types.
- For the same reason, pack-card keys are 32-byte sequences in `PackCardState`, while the handlers compare abstract `Keys.Address` values.
- `WrongVoucherOwner`, `WrongRedeemDate` and `UserRedeemedAllCards` are raised by the claim handler but not declared in `error.rs`. They are in `Errors.NFTPacksError` without a numeric code.
- ProveOwnership.ProveOwnershipCall: the second, identical `error_increment` of `proved_voucher_editions` (line 136) is computed once. It is the same checked value the comparison at line 131 already produced. The checked increment of `proved_vouchers` (line 133) is written as a plain `+ 1`, because the voucher-index increment at line 74 has already shown it cannot overflow.
- ClaimPack.Probability: `error_mul` is not called, because it provably cannot fail for a 64-bit numerator (`ClaimPack.ScaledFitsU128`).
- ClaimPack.CountDepletingProbability: `count_fixed_probability` and `count_max_supply_probability` differ only in their numerator and denominator. One method models both; `ClaimPack.GetCardProbability` passes each its operands.
- `msg!` logging is not modelled.
- The runtime rule that a program may only change the data of accounts it owns is not modelled. Under that rule a claim that passes a proving-process account owned by another program fails when the record is written back, so of the two missing checks in the Findings the address check is the one that matters on chain.
- ClaimPack.ClaimPackCall: runs the account checks of `ClaimPack.LoadClaimAccountsCorrected`, which add an owner check and an address check on the proving-process account before the handler's own checks. The handler as written performs neither (see Findings); its checks alone are `ClaimPack.LoadClaimAccounts`.

## Findings

| source | as written | input that shows it | evidently intended | confidence | as-written member | corrected member |
|---|---|---|---|---|---|---|
| rust/nft-packs/src/state/pack_card.rs:86-100 | `unpack_from_slice` uses `try_from_slice`, which rejects unused trailing bytes; a card with `max_supply: None` packs into only 143 of the account's 147 bytes | any initialized card with `max_supply = None`, packed and then unpacked | a stored card loads back whatever its `max_supply` | not executed | PackCardState.StoredCardWithoutMaxSupplyIsUnreadable | PackCardState.AccountRoundTrip |
| rust/nft-packs/src/processor/claim_pack.rs:56-60 | the proving-process account is unpacked and matched only against the pack set; its owner, its derived address and its `user_wallet` are never checked | another user's proving-process account for the same pack set (owned by the program, but at the address derived for that other user), passed by a caller who holds a token of its voucher mint: the claim draws that user's card and charges that user's `cards_redeemed` | the record read is the one `prove_ownership` keeps for this user at the address derived from `[pack_set, PREFIX, user_wallet]`, owned by the program | not executed | ClaimPack.ProvingAccountUnauthenticated | ClaimPack.ClaimReadsOwnRecord |
