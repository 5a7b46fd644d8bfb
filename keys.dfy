/** Account identities, program-derived addresses and the account checks of
    the handlers (`assert_owned_by`, `assert_account_key`, `assert_derivation`,
    `Pack::unpack`). Address derivation is modelled as an injective
    constructor of the seed tuple: two derivations agree exactly when their
    program and seeds agree. */
module Keys {
  import opened Errors
  import opened SafeMath

  /** The seed tuples the program derives addresses from. */
  datatype Seeds =
    | CardSeeds(pack: Address, index: u32)          // (pack, "card", index)
    | VoucherSeeds(pack: Address, index: u32)       // (pack, "voucher", index)
    | ProvingSeeds(pack: Address, user: Address)    // (pack, "proving", user)
    | EditionSeeds(mint: Address)                   // ("metadata", metadata program, mint, "edition")
    | AuthoritySeeds                                // the program authority

  /** An account address: an ordinary key, one of the foreign programs the
      handlers check owners against, or a program-derived address. */
  datatype Address =
    | Key(id: nat)
    | TokenMetadataProgram
    | RandomnessOracleProgram
    | Pda(program: Address, seeds: Seeds)

  /** `find_program_address`: the derived address of a seed tuple. */
  function FindProgramAddress(program: Address, seeds: Seeds): (a: Address)
    ensures a.Pda? && a.program == program && a.seeds == seeds
  {
    Pda(program, seeds)
  }

  function CardAddress(program: Address, pack: Address, index: u32): Address {
    FindProgramAddress(program, CardSeeds(pack, index))
  }

  function VoucherAddress(program: Address, pack: Address, index: u32): Address {
    FindProgramAddress(program, VoucherSeeds(pack, index))
  }

  function ProvingAddress(program: Address, pack: Address, user: Address): Address {
    FindProgramAddress(program, ProvingSeeds(pack, user))
  }

  function EditionAddress(mint: Address): Address {
    FindProgramAddress(TokenMetadataProgram, EditionSeeds(mint))
  }

  /** Derivation is injective: equal derived addresses come from equal seeds,
      so two different voucher (or card) indices never share an address, and
      the namespaces "card", "voucher" and "proving" never collide. */
  lemma DerivationInjective(p1: Address, s1: Seeds, p2: Address, s2: Seeds)
    ensures FindProgramAddress(p1, s1) == FindProgramAddress(p2, s2) <==> p1 == p2 && s1 == s2
  {
  }

  /** What an account's bytes deserialize to: an initialized record, a record
      whose `is_initialized` is false, or bytes that do not deserialize. */
  datatype AccountData<T> = Initialized(record: T) | Blank(blank: T) | Malformed

  /** An account handed to a handler by the host. */
  datatype Account<T> = Account(key: Address, owner: Address, data: AccountData<T>)

  /** `Pack::unpack`: the record, provided it deserializes and is initialized. */
  function Unpack<T>(d: AccountData<T>): (r: Result<T>)
    ensures r.Ok? <==> d.Initialized?
    ensures r.Ok? ==> r.value == d.record
    ensures d.Blank? ==> r == Err(Program(UninitializedAccount))
    ensures d.Malformed? ==> r == Err(Program(InvalidAccountData))
  {
    match d
    case Initialized(t) => Ok(t)
    case Blank(_) => Err(Program(UninitializedAccount))
    case Malformed => Err(Program(InvalidAccountData))
  }

  /** `Pack::unpack_unchecked`: the record whether or not it is initialized. */
  function UnpackUnchecked<T>(d: AccountData<T>): (r: Result<T>)
    ensures r.Ok? <==> !d.Malformed?
    ensures d.Initialized? ==> r == Ok(d.record)
    ensures d.Blank? ==> r == Ok(d.blank)
    ensures d.Malformed? ==> r == Err(Program(InvalidAccountData))
  {
    match d
    case Initialized(t) => Ok(t)
    case Blank(t) => Ok(t)
    case Malformed => Err(Program(InvalidAccountData))
  }

  /** `assert_owned_by`. */
  function AssertOwnedBy<T>(account: Account<T>, owner: Address): (o: Outcome)
    ensures o.Pass? <==> account.owner == owner
    ensures o.Fail? ==> o.error == Program(IllegalOwner)
  {
    Need(account.owner == owner, Program(IllegalOwner))
  }

  /** `assert_account_key`. */
  function AssertAccountKey(key: Address, expected: Address): (o: Outcome)
    ensures o.Pass? <==> key == expected
    ensures o.Fail? ==> o.error == Program(InvalidArgument)
  {
    Need(key == expected, Program(InvalidArgument))
  }

  /** `assert_derivation`: the account sits at the address derived from the
      given program and seeds. */
  function AssertDerivation(program: Address, key: Address, seeds: Seeds): (o: Outcome)
    ensures o.Pass? <==> key == Pda(program, seeds)
    ensures o.Fail? ==> o.error == Program(DerivedKeyInvalid)
  {
    Need(key == FindProgramAddress(program, seeds), Program(DerivedKeyInvalid))
  }
}
