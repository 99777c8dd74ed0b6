/**
 * `CompteUseCases`: the façade the controller calls. Each instance builds its own
 * seeded repository and a service over it; the alias operations check that the
 * account exists before delegating, which decides which error wins.
 */
module UseCases {
  import opened Wrappers
  import opened Js
  import opened CompteEntity
  import opened AliasEntity
  import opened TransactionEntity
  import opened AliasStore
  import opened TransactionStore
  import opened Repository
  import opened Service

  /** The verdict of `creerAlias`: the façade's existence check, then the service's checks. */
  function CreerAliasCheck(comptes: seq<Compte>, alias: seq<Alias>, numero: string, aliasType: Option<string>)
    : (r: Option<DomainError>)
    ensures FindCompte(comptes, numero).Some? ==> r == AliasCheck(comptes, alias, numero, aliasType)
  {
    if FindCompte(comptes, numero).None? then Some(CompteNotFound(numero))
    else AliasCheck(comptes, alias, numero, aliasType)
  }

  /**
   * For an unknown account the façade reports "not found" even when the type is
   * invalid, where the service alone would have reported the type.
   */
  lemma NotFoundWinsOverType(comptes: seq<Compte>, alias: seq<Alias>, numero: string, aliasType: Option<string>)
    requires FindCompte(comptes, numero).None?
    requires aliasType.None? || !IsValidType(aliasType.value)
    ensures CreerAliasCheck(comptes, alias, numero, aliasType) == Some(CompteNotFound(numero))
    ensures AliasCheck(comptes, alias, numero, aliasType) == Some(InvalidAliasType(aliasType))
    ensures CreerAliasCheck(comptes, alias, numero, aliasType) != AliasCheck(comptes, alias, numero, aliasType)
  {
    TypeCheckedFirst(comptes, alias, numero, aliasType);
  }

  /** The façade adds no outcome of its own beyond "not found": both agree on every other request. */
  lemma CreerAliasAgrees(comptes: seq<Compte>, alias: seq<Alias>, numero: string, aliasType: Option<string>)
    ensures CreerAliasCheck(comptes, alias, numero, aliasType).None? <==>
      AliasCheck(comptes, alias, numero, aliasType).None?
    ensures CreerAliasCheck(comptes, alias, numero, aliasType) != AliasCheck(comptes, alias, numero, aliasType) ==>
      CreerAliasCheck(comptes, alias, numero, aliasType) == Some(CompteNotFound(numero))
  {
  }

  class CompteUseCases {
    const repo: CompteRepositoryImpl
    const service: CompteService

    /** The service works on this instance's repository, whose alias caps hold. */
    ghost predicate Valid()
      reads this, repo
    {
      service.repo == repo && repo.Valid()
    }

    /** A fresh seeded repository per instance, built at time `now`. */
    constructor(now: Timestamp)
      ensures Valid() && fresh(repo) && fresh(service)
      ensures repo.comptes == SeedComptes(now) && repo.alias == SeedAliases(now)
      ensures repo.transactions == SeedTransactions(now)
    {
      var r := new CompteRepositoryImpl(now);
      repo := r;
      service := new CompteService(r);
    }

    /** `consulterSolde`: the account, or "Compte … non trouvé". */
    method ConsulterSolde(numero: string) returns (r: Result<Compte, DomainError>)
      requires Valid()
      ensures FindCompte(repo.comptes, numero).None? <==> r == Err(CompteNotFound(numero))
      ensures r.Ok? ==> r.value in repo.comptes && r.value.numero == numero
      ensures FindCompte(repo.comptes, numero).Some? ==> r == Ok(FindCompte(repo.comptes, numero).value)
    {
      var compte := service.GetCompte(numero);
      if compte.None? {
        return Err(CompteNotFound(numero));
      }
      return Ok(compte.value);
    }

    /** `listerTransactions`: the service's page, unchanged. */
    method ListerTransactions(filters: Filters) returns (p: Page)
      requires Valid()
      ensures p == Query(repo.transactions, filters)
    {
      p := service.GetTransactions(filters);
    }

    /** `creerTransaction`: no check of its own; the service's outcome passes through. */
    method CreerTransaction(d: TransferData, now: nat) returns (r: Result<Transaction, DomainError>)
      requires Valid()
      modifies repo
      ensures Valid()
      ensures r.Err? <==> TransferCheck(old(repo.comptes), d).Some?
      ensures r.Err? ==> r.error == TransferCheck(old(repo.comptes), d).value && repo.transactions == old(repo.transactions)
      ensures r.Ok? ==>
        r.value == NewTransaction(d.compteDebiteur.value, d.compteCrediteur.value, d.montant.value, d.motif, now) &&
        repo.transactions == old(repo.transactions) + [r.value]
      ensures repo.comptes == old(repo.comptes) && repo.alias == old(repo.alias)
    {
      r := service.CreateTransaction(d, now);
    }

    /** `listerAlias`: "not found" from the façade's own check, else the account's aliases. */
    method ListerAlias(numero: string) returns (r: Result<seq<Alias>, DomainError>)
      requires Valid()
      ensures FindCompte(repo.comptes, numero).None? ==> r == Err(CompteNotFound(numero))
      ensures FindCompte(repo.comptes, numero).Some? ==> r == Ok(AliasesOf(repo.alias, numero))
    {
      var compte := service.GetCompte(numero);
      if compte.None? {
        return Err(CompteNotFound(numero));
      }
      r := service.GetAlias(numero);
    }

    /** `creerAlias`: the verdict is `CreerAliasCheck`; on success one alias is inserted. */
    method CreerAlias(numero: string, aliasType: Option<string>, cle: string, now: Timestamp)
      returns (r: Result<Alias, DomainError>)
      requires Valid()
      modifies repo
      ensures Valid()
      ensures r.Err? <==> CreerAliasCheck(old(repo.comptes), old(repo.alias), numero, aliasType).Some?
      ensures r.Err? ==>
        r.error == CreerAliasCheck(old(repo.comptes), old(repo.alias), numero, aliasType).value &&
        repo.alias == old(repo.alias)
      ensures r.Ok? ==>
        r.value == NewAlias(numero, aliasType.value, cle, now) && repo.alias == InsertAlias(old(repo.alias), r.value)
      ensures repo.comptes == old(repo.comptes) && repo.transactions == old(repo.transactions)
    {
      var compte := service.GetCompte(numero);
      if compte.None? {
        return Err(CompteNotFound(numero));
      }
      r := service.CreateAlias(numero, aliasType, cle, now);
    }

    /** `supprimerAlias`: "not found" for an unknown account, else whether an alias was removed. */
    method SupprimerAlias(numero: string, cle: string) returns (r: Result<bool, DomainError>)
      requires Valid()
      modifies repo
      ensures Valid()
      ensures FindCompte(old(repo.comptes), numero).None? ==>
        r == Err(CompteNotFound(numero)) && repo.alias == old(repo.alias)
      ensures FindCompte(old(repo.comptes), numero).Some? ==>
        r == Ok(RemoveAlias(old(repo.alias), numero, cle).deleted) &&
        repo.alias == RemoveAlias(old(repo.alias), numero, cle).remaining
      ensures repo.comptes == old(repo.comptes) && repo.transactions == old(repo.transactions)
    {
      var compte := service.GetCompte(numero);
      if compte.None? {
        return Err(CompteNotFound(numero));
      }
      r := service.DeleteAlias(numero, cle);
    }
  }
}
