/** The `PackCard` record as the state module declares it: its fields, its
    `init`, its `is_initialized` test, and its fixed Borsh layout in a
    `LEN`-byte account (`pack_into_slice`, `unpack_from_slice`, and the
    `Pack::pack` / `Pack::unpack` wrappers around them). */
module PackCardState {
  import opened Errors
  import opened SafeMath
  import opened Borsh

  /** The account kinds of the program, in declaration order (their Borsh
      tags are 0 to 4). */
  datatype AccountType = Uninitialized | PackSet | PackCard | PackVoucher | ProvingProcess

  /** Per-card distribution sub-policy. */
  datatype DistributionType = FixedNumber | ProbabilityBased

  /** `DistributionType::default()`. */
  function DefaultDistribution(): DistributionType {
    FixedNumber
  }

  /** The nine fields of `PackCard`, in declaration (and layout) order. */
  datatype Card = Card(
    account_type: AccountType,
    pack_set: Pubkey,
    master: Pubkey,
    metadata: Pubkey,
    token_account: Pubkey,
    max_supply: Option<u32>,
    distribution_type: DistributionType,
    number_in_pack: u64,
    current_supply: u32)

  /** `PackCard::default()`: every field at its type's default. */
  function DefaultCard(): Card {
    Card(Uninitialized, seq(32, _ => 0), seq(32, _ => 0), seq(32, _ => 0), seq(32, _ => 0),
         None, DefaultDistribution(), 0, 0)
  }

  /** `InitPackCardParams`. */
  datatype InitPackCardParams = InitPackCardParams(
    pack_set: Pubkey,
    master: Pubkey,
    metadata: Pubkey,
    token_account: Pubkey,
    max_supply: Option<u32>,
    distribution_type: DistributionType,
    number_in_pack: u64)

  /** `IsInitialized::is_initialized`. */
  predicate IsInitialized(c: Card) {
    c.account_type != Uninitialized && c.account_type == AccountType.PackCard
  }

  lemma IsInitializedExactly(c: Card)
    ensures IsInitialized(c) <==> c.account_type == AccountType.PackCard
  {
  }

  /** The default card is not initialized and uses the default policy. */
  lemma DefaultCardIsBlank()
    ensures !IsInitialized(DefaultCard())
    ensures DefaultCard().distribution_type == FixedNumber
  {
  }

  /** `PackCard::init`: overwrites the card field by field. */
  method Init(card: Card, params: InitPackCardParams) returns (c: Card)
    ensures IsInitialized(c)
    ensures c.pack_set == params.pack_set && c.master == params.master
    ensures c.metadata == params.metadata && c.token_account == params.token_account
    ensures c.max_supply == params.max_supply && c.distribution_type == params.distribution_type
    ensures c.number_in_pack == params.number_in_pack
    ensures c.current_supply == 0
  {
    c := card;
    c := c.(account_type := AccountType.PackCard);
    c := c.(pack_set := params.pack_set);
    c := c.(master := params.master);
    c := c.(metadata := params.metadata);
    c := c.(token_account := params.token_account);
    c := c.(max_supply := params.max_supply);
    c := c.(distribution_type := params.distribution_type);
    c := c.(number_in_pack := params.number_in_pack);
    c := c.(current_supply := 0);
  }

  /** `Pack::LEN`: 1 + 4 * 32 + (1 + 4) + 1 + 8 + 4. */
  const LEN: nat := 147

  function AccountTypeTag(t: AccountType): (tag: u8)
    ensures tag < 5
  {
    match t
    case Uninitialized => 0
    case PackSet => 1
    case PackCard => 2
    case PackVoucher => 3
    case ProvingProcess => 4
  }

  function AccountTypeOfTag(tag: nat): (t: AccountType)
    requires tag < 5
    ensures AccountTypeTag(t) == tag
  {
    if tag == 0 then Uninitialized
    else if tag == 1 then PackSet
    else if tag == 2 then AccountType.PackCard
    else if tag == 3 then PackVoucher
    else ProvingProcess
  }

  function DistributionTag(d: DistributionType): (tag: u8)
    ensures tag < 2
  {
    if d == FixedNumber then 0 else 1
  }

  /** Borsh serialization of a card: its fields in declaration order. */
  function Serialize(c: Card): (s: seq<u8>)
    ensures |s| == if c.max_supply.Some? then LEN else LEN - 4
  {
    Pow256Widths();
    [AccountTypeTag(c.account_type)] +
    (c.pack_set +
    (c.master +
    (c.metadata +
    (c.token_account +
    (WriteOptionU32(c.max_supply) +
    ([DistributionTag(c.distribution_type)] +
    (LittleEndian(c.number_in_pack, 8) +
     LittleEndian(c.current_supply, 4))))))))
  }

  /** Borsh `deserialize` from the front of `s`: the card and the bytes
      after it. */
  function Deserialize(s: seq<u8>): Option<Parsed<Card>> {
    var accountType :- ReadTag(s, 5);
    var packSet :- ReadPubkey(accountType.rest);
    var master :- ReadPubkey(packSet.rest);
    var metadata :- ReadPubkey(master.rest);
    var tokenAccount :- ReadPubkey(metadata.rest);
    var maxSupply :- ReadOptionU32(tokenAccount.rest);
    var distribution :- ReadTag(maxSupply.rest, 2);
    var numberInPack :- ReadUint(distribution.rest, 8);
    var currentSupply :- ReadUint(numberInPack.rest, 4);
    Pow256Widths();
    Some(Parsed(
      Card(AccountTypeOfTag(accountType.value), packSet.value, master.value, metadata.value,
           tokenAccount.value, maxSupply.value,
           if distribution.value == 0 then FixedNumber else ProbabilityBased,
           numberInPack.value as u64, currentSupply.value as u32),
      currentSupply.rest))
  }

  /** Reading a serialized card from the front of any byte string gives the
      card back and leaves the bytes after it. */
  lemma {:induction false} DeserializeSerialized(c: Card, rest: seq<u8>)
    ensures Deserialize(Serialize(c) + rest) == Some(Parsed(c, rest))
  {
    Pow256Widths();
    var t4 := LittleEndian(c.current_supply, 4) + rest;
    var t3 := LittleEndian(c.number_in_pack, 8) + t4;
    var t2 := [DistributionTag(c.distribution_type)] + t3;
    var t1 := WriteOptionU32(c.max_supply) + t2;
    var k4 := c.token_account + t1;
    var k3 := c.metadata + k4;
    var k2 := c.master + k3;
    var k1 := c.pack_set + k2;
    assert Serialize(c) + rest == [AccountTypeTag(c.account_type)] + k1;
    ReadTagWritten(AccountTypeTag(c.account_type), 5, k1);
    ReadPubkeyWritten(c.pack_set, k2);
    ReadPubkeyWritten(c.master, k3);
    ReadPubkeyWritten(c.metadata, k4);
    ReadPubkeyWritten(c.token_account, t1);
    ReadOptionU32Written(c.max_supply, t2);
    ReadTagWritten(DistributionTag(c.distribution_type), 2, t3);
    ReadUintWritten(c.number_in_pack, 8, t4);
    ReadUintWritten(c.current_supply, 4, rest);
  }

  /** Borsh `try_from_slice`: deserializes and insists every byte is used. */
  function TryFromSlice(s: seq<u8>): (r: Option<Card>)
    ensures r.Some? <==> Deserialize(s).Some? && Deserialize(s).value.rest == []
    ensures r.Some? ==> r.value == Deserialize(s).value.value
  {
    var parsed :- Deserialize(s);
    if parsed.rest == [] then Some(parsed.value) else None
  }

  /** Decoding the encoding of any card yields the same card. */
  lemma SerializeRoundTrip(c: Card)
    ensures TryFromSlice(Serialize(c)) == Some(c)
  {
    DeserializeSerialized(c, []);
    assert Serialize(c) + [] == Serialize(c);
  }

  /** `unpack_from_slice`: any deserialization failure is reported as
      `InvalidAccountData`. */
  function UnpackFromSlice(src: seq<u8>): (r: Result<Card>)
    ensures r.Ok? <==> TryFromSlice(src).Some?
    ensures r.Ok? ==> r.value == TryFromSlice(src).value
    ensures r.Err? ==> r.error == Program(InvalidAccountData)
  {
    match TryFromSlice(src)
    case Some(c) => Ok(c)
    case None => Err(Program(InvalidAccountData))
  }

  /** `pack_into_slice` into a `LEN`-byte account: the serialization is
      written over the front; any bytes after it keep their old value. */
  function PackIntoSlice(c: Card, dst: seq<u8>): (s: seq<u8>)
    requires |dst| == LEN
    ensures |s| == LEN
    ensures s[..|Serialize(c)|] == Serialize(c)
    ensures s[|Serialize(c)|..] == dst[|Serialize(c)|..]
  {
    Serialize(c) + dst[|Serialize(c)|..]
  }

  /** `Pack::unpack`: length check, `unpack_from_slice`, then the
      initialization check. */
  function Unpack(src: seq<u8>): (r: Result<Card>)
    ensures r.Ok? <==> |src| == LEN && TryFromSlice(src).Some? && IsInitialized(TryFromSlice(src).value)
    ensures r.Ok? ==> r.value == TryFromSlice(src).value
    ensures |src| != LEN ==> r == Err(Program(InvalidAccountData))
    ensures |src| == LEN && TryFromSlice(src).None? ==> r == Err(Program(InvalidAccountData))
    ensures |src| == LEN && TryFromSlice(src).Some? && !IsInitialized(TryFromSlice(src).value)
      ==> r == Err(Program(UninitializedAccount))
  {
    if |src| != LEN then Err(Program(InvalidAccountData))
    else
      var c :- UnpackFromSlice(src);
      if IsInitialized(c) then Ok(c) else Err(Program(UninitializedAccount))
  }

  /** An initialized card with a maximum supply survives a store and load
      through its account. */
  lemma AccountRoundTripWithMaxSupply(c: Card, dst: seq<u8>)
    requires |dst| == LEN && IsInitialized(c) && c.max_supply.Some?
    ensures Unpack(PackIntoSlice(c, dst)) == Ok(c)
  {
    assert PackIntoSlice(c, dst) == Serialize(c);
    SerializeRoundTrip(c);
  }

  /** As written, a card without a maximum supply serializes to four bytes
      fewer than `LEN`; the leftover bytes make `try_from_slice` fail, so the
      stored card can never be loaded again. */
  lemma StoredCardWithoutMaxSupplyIsUnreadable(c: Card, dst: seq<u8>)
    requires |dst| == LEN && c.max_supply.None?
    ensures Unpack(PackIntoSlice(c, dst)) == Err(Program(InvalidAccountData))
  {
    var tail := dst[LEN - 4..];
    assert PackIntoSlice(c, dst) == Serialize(c) + tail;
    DeserializeSerialized(c, tail);
    assert |tail| == 4;
  }

  /** The corrected `unpack_from_slice`: Borsh `deserialize` of the front of
      the account, ignoring the unused bytes after the record. */
  function UnpackFromSlicePrefix(src: seq<u8>): (r: Result<Card>)
    ensures r.Ok? <==> Deserialize(src).Some?
    ensures r.Ok? ==> r.value == Deserialize(src).value.value
    ensures r.Err? ==> r.error == Program(InvalidAccountData)
  {
    match Deserialize(src)
    case Some(parsed) => Ok(parsed.value)
    case None => Err(Program(InvalidAccountData))
  }

  /** `Pack::unpack` over the corrected `unpack_from_slice`. */
  function UnpackCorrected(src: seq<u8>): (r: Result<Card>)
    ensures r.Ok? <==> |src| == LEN && Deserialize(src).Some? && IsInitialized(Deserialize(src).value.value)
    ensures r.Ok? ==> r.value == Deserialize(src).value.value
    ensures |src| != LEN ==> r == Err(Program(InvalidAccountData))
    ensures |src| == LEN && Deserialize(src).None? ==> r == Err(Program(InvalidAccountData))
    ensures |src| == LEN && Deserialize(src).Some? && !IsInitialized(Deserialize(src).value.value)
      ==> r == Err(Program(UninitializedAccount))
  {
    if |src| != LEN then Err(Program(InvalidAccountData))
    else
      var c :- UnpackFromSlicePrefix(src);
      if IsInitialized(c) then Ok(c) else Err(Program(UninitializedAccount))
  }

  /** With the corrected unpack, every initialized card survives a store and
      load through its account, whatever the account held before. */
  lemma AccountRoundTrip(c: Card, dst: seq<u8>)
    requires |dst| == LEN && IsInitialized(c)
    ensures UnpackCorrected(PackIntoSlice(c, dst)) == Ok(c)
  {
    DeserializeSerialized(c, dst[|Serialize(c)|..]);
  }
}
