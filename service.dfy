/**
 * `CompteService`: the domain rules in front of the repository. Transfers are
 * validated fail-fast, then both accounts are looked up, then the balance is
 * checked; alias creation checks the type, the account and the business cap of 20.
 * A thrown `Error` is an `Err` carrying a `DomainError`, whose message is the
 * text the source throws.
 */
module Service {
  import opened Wrappers
  import opened Js
  import opened CompteEntity
  import opened AliasEntity
  import opened TransactionEntity
  import opened AliasStore
  import opened TransactionStore
  import opened Repository

  /** The errors the service (and the use cases) throw. */
  datatype DomainError =
    | Invalid(field: FieldError)
    | DebitNotFound(numero: string)
    | CreditNotFound(numero: string)
    | InsufficientFunds
    | CompteNotFound(numero: string)
    | AliasLimit
    | InvalidAliasType(aliasType: Option<string>)

  const NonTrouve: string := "non trouvé"
  const MsgSoldeInsuffisant: string := "Solde insuffisant"
  const MsgLimiteAlias: string := "Limite d'alias dépassée pour ce compte"

  /** The message of each error; a missing alias type is rendered as `undefined`. */
  function Message(e: DomainError): string {
    match e
    case Invalid(f) => FieldMessage(f)
    case DebitNotFound(n) => "Compte débiteur " + n + " " + NonTrouve
    case CreditNotFound(n) => "Compte créditeur " + n + " " + NonTrouve
    case InsufficientFunds => MsgSoldeInsuffisant
    case CompteNotFound(n) => "Compte " + n + " " + NonTrouve
    case AliasLimit => MsgLimiteAlias
    case InvalidAliasType(t) =>
      "Type d'alias invalide: " + (if t.Some? then t.value else "undefined") + ". Types autorisés: SHID, MCOD"
  }

  /**
   * `_validateTransaction`: the first defect in checking order, or none. It fails
   * exactly when the collect-all validator does, and with that validator's first error.
   */
  function FirstDefect(d: TransferData): (r: Option<FieldError>)
    ensures r.None? <==> Validate(d).isValid
    ensures r.Some? ==> r.value == Validate(d).errors[0] && HasDefect(d, r.value)
    ensures r.Some? ==> forall e :: HasDefect(d, e) ==> Rank(r.value) <= Rank(e)
  {
    if !AccountFieldOk(d.compteDebiteur) then Some(DebitInvalide)
    else if !AccountFieldOk(d.compteCrediteur) then Some(CreditInvalide)
    else if !MontantOk(d.montant) then Some(MontantNonPositif)
    else if !MotifOk(d.motif) then Some(MotifTropLong)
    else None
  }

  /**
   * The verdict of `createTransaction` on the accounts `comptes`: the first validation
   * defect, else an unknown debit account, else an unknown credit account, else
   * insufficient funds; None means the transfer is recorded.
   */
  function TransferCheck(comptes: seq<Compte>, d: TransferData): (r: Option<DomainError>)
    ensures r.None? ==> AccountFieldOk(d.compteDebiteur) && AccountFieldOk(d.compteCrediteur) && MontantOk(d.montant)
  {
    match FirstDefect(d)
    case Some(e) => Some(Invalid(e))
    case None =>
      var debit := FindCompte(comptes, d.compteDebiteur.value);
      var credit := FindCompte(comptes, d.compteCrediteur.value);
      if debit.None? then Some(DebitNotFound(d.compteDebiteur.value))
      else if credit.None? then Some(CreditNotFound(d.compteCrediteur.value))
      else if debit.value.solde < d.montant.value then Some(InsufficientFunds)
      else None
  }

  /** Validation comes before any lookup: an invalid payload fails the same way whatever the store holds. */
  lemma ValidationPrecedesLookup(c1: seq<Compte>, c2: seq<Compte>, d: TransferData)
    requires !Validate(d).isValid
    ensures TransferCheck(c1, d) == TransferCheck(c2, d) == Some(Invalid(Validate(d).errors[0]))
  {
  }

  /** With both accounts unknown, the debit account is the one reported. */
  lemma DebitReportedBeforeCredit(comptes: seq<Compte>, d: TransferData)
    requires Validate(d).isValid
    requires FindCompte(comptes, d.compteDebiteur.value).None?
    ensures TransferCheck(comptes, d) == Some(DebitNotFound(d.compteDebiteur.value))
  {
  }

  /**
   * A transfer is accepted exactly when the payload is valid, both accounts exist and
   * the debit balance covers the amount; with both accounts known, funds are short
   * exactly when the balance is below the amount (an equal balance passes); a known
   * debit account with an unknown credit account reports the credit account.
   */
  lemma TransferAcceptedIff(comptes: seq<Compte>, d: TransferData)
    ensures TransferCheck(comptes, d).None? <==>
      Validate(d).isValid &&
      FindCompte(comptes, d.compteDebiteur.value).Some? &&
      FindCompte(comptes, d.compteCrediteur.value).Some? &&
      FindCompte(comptes, d.compteDebiteur.value).value.solde >= d.montant.value
    ensures (Validate(d).isValid &&
      FindCompte(comptes, d.compteDebiteur.value).Some? &&
      FindCompte(comptes, d.compteCrediteur.value).Some?) ==>
      (TransferCheck(comptes, d) == Some(InsufficientFunds) <==>
        FindCompte(comptes, d.compteDebiteur.value).value.solde < d.montant.value)
    ensures (Validate(d).isValid &&
      FindCompte(comptes, d.compteDebiteur.value).Some? &&
      FindCompte(comptes, d.compteCrediteur.value).None?) ==>
      TransferCheck(comptes, d) == Some(CreditNotFound(d.compteCrediteur.value))
  {
  }

  /**
   * The verdict of `createAlias`: an invalid type first (even for an unknown account),
   * then an unknown account, then the business cap on the count before insertion.
   */
  function AliasCheck(comptes: seq<Compte>, alias: seq<Alias>, numero: string, aliasType: Option<string>)
    : (r: Option<DomainError>)
    ensures r.None? ==> aliasType.Some? && IsValidType(aliasType.value)
  {
    if !Present(aliasType) || !IsValidType(aliasType.value) then Some(InvalidAliasType(aliasType))
    else if FindCompte(comptes, numero).None? then Some(CompteNotFound(numero))
    else if AliasCount(alias, numero) >= BusinessCap then Some(AliasLimit)
    else None
  }

  /**
   * An alias is created exactly when the type is SHID or MCOD, the account exists and
   * holds fewer than 20 aliases; under the store's caps the limit can only be hit by the
   * saturated seeded account, so any other existing account always gets its alias.
   */
  lemma AliasAcceptedIff(comptes: seq<Compte>, alias: seq<Alias>, numero: string, aliasType: Option<string>)
    requires AliasCapsHold(alias)
    ensures AliasCheck(comptes, alias, numero, aliasType).None? <==>
      (aliasType == Some("SHID") || aliasType == Some("MCOD")) &&
      FindCompte(comptes, numero).Some? && AliasCount(alias, numero) < BusinessCap
    ensures AliasCheck(comptes, alias, numero, aliasType) == Some(AliasLimit) ==> numero == SaturatedCompte
    ensures numero != SaturatedCompte ==>
      (AliasCheck(comptes, alias, numero, aliasType).None? <==>
        (aliasType == Some("SHID") || aliasType == Some("MCOD")) && FindCompte(comptes, numero).Some?)
  {
    assert AliasCount(alias, numero) <= if numero == SaturatedCompte then BusinessCap else StoreCap;
    if aliasType.Some? {
      ValidTypes(aliasType.value);
    }
  }

  /** The type is checked before the account: an invalid type wins whatever the store holds. */
  lemma TypeCheckedFirst(comptes: seq<Compte>, alias: seq<Alias>, numero: string, aliasType: Option<string>)
    requires aliasType.None? || !IsValidType(aliasType.value)
    ensures AliasCheck(comptes, alias, numero, aliasType) == Some(InvalidAliasType(aliasType))
  {
  }

  /** From the seed, the saturated account is refused a new alias; the ordinary one gets it. */
  lemma SeedAliasLimit(now: Timestamp)
    ensures AliasCheck(SeedComptes(now), SeedAliases(now), SaturatedCompte, Some("SHID")) == Some(AliasLimit)
    ensures AliasCheck(SeedComptes(now), SeedAliases(now), Compte822, Some("MCOD")).None?
  {
    SeedAliasCounts(now);
    SeedLookups(now);
    ValidTypes("SHID");
    ValidTypes("MCOD");
    AliasCheckSteps(SeedComptes(now), SeedAliases(now), SaturatedCompte, Some("SHID"));
    AliasCheckSteps(SeedComptes(now), SeedAliases(now), Compte822, Some("MCOD"));
  }

  /** With a valid type and a known account, only the count decides. */
  lemma AliasCheckSteps(comptes: seq<Compte>, alias: seq<Alias>, numero: string, aliasType: Option<string>)
    requires aliasType.Some? && IsValidType(aliasType.value) && FindCompte(comptes, numero).Some?
    ensures AliasCount(alias, numero) >= BusinessCap ==> AliasCheck(comptes, alias, numero, aliasType) == Some(AliasLimit)
    ensures AliasCount(alias, numero) < BusinessCap ==> AliasCheck(comptes, alias, numero, aliasType).None?
  {
  }

  /** From the seed, the low-balance account can send exactly its balance, not one unit more. */
  lemma SeedBalanceBoundary(now: Timestamp, motif: Option<string>)
    requires MotifOk(motif)
    ensures TransferCheck(SeedComptes(now), TransferData(Some(Compte888), Some(Compte822), Some(50000), motif)).None?
    ensures TransferCheck(SeedComptes(now), TransferData(Some(Compte888), Some(Compte822), Some(50001), motif))
      == Some(InsufficientFunds)
  {
    SeedLookups(now);
    CompteNumerosValid();
    var low := TransferData(Some(Compte888), Some(Compte822), Some(50000), motif);
    var high := TransferData(Some(Compte888), Some(Compte822), Some(50001), motif);
    assert FirstDefect(low).None? && FirstDefect(high).None?;
    TransferCheckSteps(SeedComptes(now), low);
    TransferCheckSteps(SeedComptes(now), high);
  }

  /** A valid payload between two known accounts is decided by the debit balance alone. */
  lemma TransferCheckSteps(comptes: seq<Compte>, d: TransferData)
    requires FirstDefect(d).None?
    requires FindCompte(comptes, d.compteDebiteur.value).Some? && FindCompte(comptes, d.compteCrediteur.value).Some?
    ensures TransferCheck(comptes, d) ==
      if FindCompte(comptes, d.compteDebiteur.value).value.solde < d.montant.value then Some(InsufficientFunds) else None
  {
  }

  /** The seeded ordinary and low-balance account numbers are well formed. */
  lemma CompteNumerosValid()
    ensures IsValidNumero(Compte822) && IsValidNumero(Compte888)
  {
    assert forall i :: 3 <= i < |Compte822| ==> IsDigit(Compte822[i]);
    assert forall i :: 3 <= i < |Compte888| ==> IsDigit(Compte888[i]);
  }

  class CompteService {
    const repo: CompteRepositoryImpl

    constructor(repo: CompteRepositoryImpl)
      ensures this.repo == repo
    {
      this.repo := repo;
    }

    /** `getCompte`: the repository's lookup, passed through. */
    method GetCompte(numero: string) returns (r: Option<Compte>)
      ensures r == FindCompte(repo.comptes, numero)
      ensures r.Some? ==> r.value in repo.comptes && r.value.numero == numero
    {
      r := repo.FindCompteByNumero(numero);
    }

    /** `getTransactions`: the repository's query, passed through. */
    method GetTransactions(filters: Filters) returns (p: Page)
      ensures p == Query(repo.transactions, filters)
    {
      p := repo.FindTransactions(filters);
    }

    /**
     * `createTransaction`: on success the only effect is one appended record; on
     * failure nothing changes. No balance is ever changed.
     */
    method CreateTransaction(d: TransferData, now: nat) returns (r: Result<Transaction, DomainError>)
      requires repo.Valid()
      modifies repo
      ensures repo.Valid()
      ensures r.Err? <==> TransferCheck(old(repo.comptes), d).Some?
      ensures r.Err? ==> r.error == TransferCheck(old(repo.comptes), d).value && repo.transactions == old(repo.transactions)
      ensures r.Ok? ==>
        r.value == NewTransaction(d.compteDebiteur.value, d.compteCrediteur.value, d.montant.value, d.motif, now) &&
        repo.transactions == old(repo.transactions) + [r.value]
      ensures repo.comptes == old(repo.comptes) && repo.alias == old(repo.alias)
    {
      var defect := FirstDefect(d);
      if defect.Some? {
        return Err(Invalid(defect.value));
      }
      var debit := repo.FindByNumero(d.compteDebiteur.value);
      var credit := repo.FindByNumero(d.compteCrediteur.value);
      if debit.None? {
        return Err(DebitNotFound(d.compteDebiteur.value));
      }
      if credit.None? {
        return Err(CreditNotFound(d.compteCrediteur.value));
      }
      if debit.value.solde < d.montant.value {
        return Err(InsufficientFunds);
      }
      var t := repo.SaveTransaction(d.compteDebiteur.value, d.compteCrediteur.value, d.montant.value, d.motif, now);
      return Ok(t);
    }

    /** `getAlias`: not found for an unknown account, else its aliases in store order. */
    method GetAlias(numero: string) returns (r: Result<seq<Alias>, DomainError>)
      ensures FindCompte(repo.comptes, numero).None? ==> r == Err(CompteNotFound(numero))
      ensures FindCompte(repo.comptes, numero).Some? ==> r == Ok(AliasesOf(repo.alias, numero))
    {
      var compte := repo.FindByNumero(numero);
      if compte.None? {
        return Err(CompteNotFound(numero));
      }
      var list := repo.FindAliasByCompte(numero);
      return Ok(list);
    }

    /**
     * `createAlias`: when `AliasCheck` passes, one `saveAlias` with the generated key
     * `cle`; otherwise the store is left unchanged.
     */
    method CreateAlias(numero: string, aliasType: Option<string>, cle: string, now: Timestamp)
      returns (r: Result<Alias, DomainError>)
      requires repo.Valid()
      modifies repo
      ensures repo.Valid()
      ensures r.Err? <==> AliasCheck(old(repo.comptes), old(repo.alias), numero, aliasType).Some?
      ensures r.Err? ==>
        r.error == AliasCheck(old(repo.comptes), old(repo.alias), numero, aliasType).value &&
        repo.alias == old(repo.alias)
      ensures r.Ok? ==>
        r.value == NewAlias(numero, aliasType.value, cle, now) && repo.alias == InsertAlias(old(repo.alias), r.value)
      ensures repo.comptes == old(repo.comptes) && repo.transactions == old(repo.transactions)
    {
      if !Present(aliasType) || !IsValidType(aliasType.value) {
        return Err(InvalidAliasType(aliasType));
      }
      var compte := repo.FindByNumero(numero);
      if compte.None? {
        return Err(CompteNotFound(numero));
      }
      var count := repo.GetAliasCount(numero);
      if count >= BusinessCap {
        return Err(AliasLimit);
      }
      var a := repo.SaveAlias(numero, aliasType.value, cle, now);
      return Ok(a);
    }

    /** `deleteAlias`: not found for an unknown account (store untouched), else the repository's boolean. */
    method DeleteAlias(numero: string, cle: string) returns (r: Result<bool, DomainError>)
      requires repo.Valid()
      modifies repo
      ensures repo.Valid()
      ensures FindCompte(old(repo.comptes), numero).None? ==>
        r == Err(CompteNotFound(numero)) && repo.alias == old(repo.alias)
      ensures FindCompte(old(repo.comptes), numero).Some? ==>
        r == Ok(RemoveAlias(old(repo.alias), numero, cle).deleted) &&
        repo.alias == RemoveAlias(old(repo.alias), numero, cle).remaining
      ensures repo.comptes == old(repo.comptes) && repo.transactions == old(repo.transactions)
    {
      var compte := repo.FindByNumero(numero);
      if compte.None? {
        return Err(CompteNotFound(numero));
      }
      var deleted := repo.DeleteAlias(numero, cle);
      return Ok(deleted);
    }
  }
}
