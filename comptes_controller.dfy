/**
 * The six handlers of `controllers/comptes.js`, as functions from the request fields
 * (and the store they read) to the reply's status and problem detail: the parameter
 * checks made before any use-case call, and the classification of thrown messages by
 * substring. A controller class runs them against its use cases.
 */
module ComptesController {
  import opened Wrappers
  import opened Js
  import opened CompteEntity
  import opened AliasEntity
  import opened TransactionEntity
  import opened AliasStore
  import opened TransactionStore
  import opened Repository
  import opened Service
  import opened UseCases

  /** A problem reply: its status, its `detail`, and the name in `invalid-params`, if any. */
  datatype Problem = Problem(status: nat, detail: string, invalidParam: Option<string>)

  datatype Reply<T> = Success(status: nat, body: T) | Failure(problem: Problem)

  const MsgFormatNumero: string := "Le numéro de compte doit respecter le format CIC[0-9]+"
  const MsgPageMin: string := "La page doit être >= 1"
  const MsgTailleMin: string := "La taille doit être >= 1"
  const MsgTailleMax: string := "La taille doit être <= 100"
  const MsgChampsObligatoires: string := "Les champs compteDebiteur, compteCrediteur et montant sont obligatoires"
  const MsgMontantPositif: string := "Le montant doit être positif"
  const MsgTypeAlias: string := "Le type d'alias doit être SHID ou MCOD"
  const MsgCleUuid: string := "La clé d'alias doit être un UUID v4 valide"
  const MsgInattendue: string := "Une erreur inattendue s'est produite"
  const MarkerLimite: string := "Limite d'alias dépassée"
  const MarkerCompte: string := "Compte"
  const DefaultSort: string := "-dateCreation"
  const DefaultPage: int := 1
  const DefaultSize: int := 20
  const MaxSize: int := 100

  function BadRequest(detail: string): Problem {
    Problem(400, detail, None)
  }

  /**
   * A `catch` block: a message containing "non trouvé" is a 404, one containing the
   * handler's bad-request marker (if it has one) a 400, and anything else a 500 whose
   * detail hides the message.
   */
  function ErrorProblem(msg: string, badRequestMarker: Option<string>, notFoundParam: Option<string>): Problem {
    if Contains(msg, NonTrouve) then Problem(404, msg, notFoundParam)
    else if badRequestMarker.Some? && Contains(msg, badRequestMarker.value) then Problem(400, msg, None)
    else Problem(500, MsgInattendue, None)
  }

  lemma ContainsItself(s: string)
    ensures Contains(s, s)
  {
    assert StartsWith(s, s);
  }

  /** A message of the form `… non trouvé` is recognised as "not found". */
  lemma NotFoundMessage(prefix: string)
    ensures Contains(prefix + NonTrouve, NonTrouve)
  {
    ContainsMiddle(prefix, NonTrouve, []);
    assert prefix + NonTrouve + [] == prefix + NonTrouve;
  }

  /** "Solde insuffisant" is not a "not found" message, and carries its own marker. */
  lemma SoldeMessageClass()
    ensures !Contains(MsgSoldeInsuffisant, NonTrouve)
    ensures Contains(MsgSoldeInsuffisant, MsgSoldeInsuffisant)
  {
    assert 'é' in NonTrouve && 'é' !in MsgSoldeInsuffisant;
    MissingCharExcludes(MsgSoldeInsuffisant, NonTrouve, 'é');
    ContainsItself(MsgSoldeInsuffisant);
  }

  /** A message without 'é' and without 'S' contains neither "non trouvé" nor "Solde insuffisant". */
  lemma UnmarkedMessage(m: string)
    requires 'é' !in m && 'S' !in m
    ensures !Contains(m, NonTrouve) && !Contains(m, MsgSoldeInsuffisant)
  {
    assert NonTrouve[9] == 'é' && MsgSoldeInsuffisant[0] == 'S';
    MissingCharExcludes(m, NonTrouve, 'é');
    MissingCharExcludes(m, MsgSoldeInsuffisant, 'S');
  }

  /** A validation message of the service contains neither "non trouvé" nor "Solde insuffisant". */
  lemma FieldMessageClass(f: FieldError)
    ensures !Contains(FieldMessage(f), NonTrouve)
    ensures !Contains(FieldMessage(f), MsgSoldeInsuffisant)
  {
    match f
    case DebitInvalide => AccountMessagesUnmarked(); UnmarkedMessage(MsgDebitInvalide);
    case CreditInvalide => AccountMessagesUnmarked(); UnmarkedMessage(MsgCreditInvalide);
    case MontantNonPositif => MontantMessageUnmarked(); UnmarkedMessage(MsgMontantNonPositif);
    case MotifTropLong => MotifMessageUnmarked(); UnmarkedMessage(MsgMotifTropLong);
  }

  lemma AccountMessagesUnmarked()
    ensures 'é' !in MsgDebitInvalide && 'S' !in MsgDebitInvalide
    ensures 'é' !in MsgCreditInvalide && 'S' !in MsgCreditInvalide
  {
  }

  lemma MontantMessageUnmarked()
    ensures 'é' !in MsgMontantNonPositif && 'S' !in MsgMontantNonPositif
  {
  }

  lemma MotifMessageUnmarked()
    ensures 'é' !in MsgMotifTropLong && 'S' !in MsgMotifTropLong
  {
  }

  /** A message without 'v' does not contain "non trouvé". */
  lemma NoNotFoundWithoutV(m: string)
    requires 'v' !in m
    ensures !Contains(m, NonTrouve)
  {
    assert NonTrouve[8] == 'v';
    MissingCharExcludes(m, NonTrouve, 'v');
  }

  lemma LimiteMessageShape()
    ensures 'v' !in MsgLimiteAlias
    ensures MsgLimiteAlias == [] + MarkerLimite + " pour ce compte"
  {
  }

  /** The alias-limit message is not a "not found" message, and carries the limit marker. */
  lemma LimiteMessageClass()
    ensures !Contains(MsgLimiteAlias, NonTrouve)
    ensures Contains(MsgLimiteAlias, MarkerLimite)
  {
    LimiteMessageShape();
    NoNotFoundWithoutV(MsgLimiteAlias);
    ContainsMiddle([], MarkerLimite, " pour ce compte");
  }

  /**
   * How the transfer handler classifies the service's errors: unknown accounts are 404,
   * insufficient funds 400, and every validation error of the service (a malformed
   * account, a motif over 140 characters, …) falls through to 500.
   */
  lemma TransferErrorStatus(e: DomainError)
    ensures e.DebitNotFound? || e.CreditNotFound? ==>
      ErrorProblem(Message(e), Some(MsgSoldeInsuffisant), None) == Problem(404, Message(e), None)
    ensures e.InsufficientFunds? ==>
      ErrorProblem(Message(e), Some(MsgSoldeInsuffisant), None) == Problem(400, MsgSoldeInsuffisant, None)
    ensures e.Invalid? ==>
      ErrorProblem(Message(e), Some(MsgSoldeInsuffisant), None) == Problem(500, MsgInattendue, None)
  {
    match e {
      case DebitNotFound(n) =>
        NotFoundMessage("Compte débiteur " + n + " ");
      case CreditNotFound(n) =>
        NotFoundMessage("Compte créditeur " + n + " ");
      case InsufficientFunds =>
        SoldeMessageClass();
      case Invalid(f) =>
        FieldMessageClass(f);
      case _ =>
    }
  }

  /** How the alias-creation handler classifies: unknown account 404, limit reached 400. */
  lemma AliasErrorStatus(e: DomainError)
    ensures e.CompteNotFound? ==>
      ErrorProblem(Message(e), Some(MarkerLimite), None) == Problem(404, Message(e), None)
    ensures e.AliasLimit? ==>
      ErrorProblem(Message(e), Some(MarkerLimite), None) == Problem(400, MsgLimiteAlias, None)
  {
    match e {
      case CompteNotFound(n) =>
        NotFoundMessage("Compte " + n + " ");
      case AliasLimit =>
        LimiteMessageClass();
      case _ =>
    }
  }

  /** `compteSoldeConsulter`: format check, then the account or a 404 naming `numero`. */
  function SoldeReply(comptes: seq<Compte>, numero: string): Reply<Compte> {
    if !IsValidNumero(numero) then Failure(BadRequest(MsgFormatNumero))
    else match FindCompte(comptes, numero)
      case None => Failure(ErrorProblem(Message(CompteNotFound(numero)), None, Some("numero")))
      case Some(c) => Success(200, c)
  }

  /** `parseInt(p) || d`: a missing parameter, a NaN or a zero gives the default. */
  function ParamOr(p: Option<string>, d: int): (r: int)
    ensures p.None? ==> r == d
    ensures p.Some? && ParseInt(p.value).None? ==> r == d
    ensures p.Some? && ParseInt(p.value).Some? ==> r == if ParseInt(p.value).value == 0 then d else ParseInt(p.value).value
  {
    match p
    case None => d
    case Some(s) =>
      match ParseInt(s)
      case None => d
      case Some(n) => if n == 0 then d else n
  }

  /**
   * `compteTransfertIntraLister`'s parameter checks: page and size default to 1 and 20,
   * then page < 1, size < 1 and size > 100 are refused; the sort defaults to `-dateCreation`.
   */
  function ListerFilters(page: Option<string>, size: Option<string>, sort: Option<string>,
                         statut: Option<string>): (r: Result<Filters, Problem>)
    ensures r.Ok? ==> 1 <= r.value.page && 1 <= r.value.size <= MaxSize && r.value.sort.Some?
    ensures r.Ok? ==> r.value.statut == statut && (sort.Some? ==> r.value.sort == sort)
    ensures r.Ok? ==> r.value.sort == Some(if sort.Some? then sort.value else DefaultSort)
    ensures r.Ok? <==>
      1 <= ParamOr(page, DefaultPage) && 1 <= ParamOr(size, DefaultSize) <= MaxSize
    ensures r.Ok? ==>
      r.value.page == ParamOr(page, DefaultPage) && r.value.size == ParamOr(size, DefaultSize)
    ensures ParamOr(page, DefaultPage) < 1 ==> r == Err(BadRequest(MsgPageMin))
    ensures 1 <= ParamOr(page, DefaultPage) && ParamOr(size, DefaultSize) < 1 ==> r == Err(BadRequest(MsgTailleMin))
    ensures 1 <= ParamOr(page, DefaultPage) && ParamOr(size, DefaultSize) > MaxSize ==> r == Err(BadRequest(MsgTailleMax))
  {
    var pageNum := ParamOr(page, DefaultPage);
    var sizeNum := ParamOr(size, DefaultSize);
    if pageNum < 1 then Err(BadRequest(MsgPageMin))
    else if sizeNum < 1 then Err(BadRequest(MsgTailleMin))
    else if sizeNum > MaxSize then Err(BadRequest(MsgTailleMax))
    else Ok(Filters(pageNum, sizeNum, Some(if sort.Some? then sort.value else DefaultSort), statut))
  }

  /** `compteTransfertIntraLister`: the checked filters' page of the log. */
  function ListerReply(transactions: seq<Transaction>, page: Option<string>, size: Option<string>,
                       sort: Option<string>, statut: Option<string>): Reply<Page> {
    match ListerFilters(page, size, sort, statut)
    case Err(p) => Failure(p)
    case Ok(f) => Success(200, Query(transactions, f))
  }

  /** Page and size given in decimal are served as given when in range. */
  lemma ListerInRange(page: nat, size: nat, sort: Option<string>, statut: Option<string>)
    requires 1 <= page && 1 <= size <= MaxSize
    ensures ListerFilters(Some(DecimalString(page)), Some(DecimalString(size)), sort, statut) ==
      Ok(Filters(page, size, Some(if sort.Some? then sort.value else DefaultSort), statut))
  {
    ParseIntDecimalString(page);
    ParseIntDecimalString(size);
  }

  /** A size over 100 is refused. */
  lemma ListerOversize(page: nat, size: nat, sort: Option<string>, statut: Option<string>)
    requires 1 <= page && size > MaxSize
    ensures ListerFilters(Some(DecimalString(page)), Some(DecimalString(size)), sort, statut) ==
      Err(BadRequest(MsgTailleMax))
  {
    ParseIntDecimalString(page);
    ParseIntDecimalString(size);
  }

  /** A size of 0 is falsy and served as 20. */
  lemma ListerZeroSize(page: nat, sort: Option<string>, statut: Option<string>)
    requires 1 <= page
    ensures ListerFilters(Some(DecimalString(page)), Some("0"), sort, statut) ==
      Ok(Filters(page, DefaultSize, Some(if sort.Some? then sort.value else DefaultSort), statut))
  {
    ParseIntDecimalString(page);
    ZeroParses();
    assert ParamOr(Some(DecimalString(page)), DefaultPage) == page;
    assert ParamOr(Some("0"), DefaultSize) == DefaultSize;
  }

  lemma ZeroParses()
    ensures ParseInt("0") == Some(0)
  {
    ParseIntDecimalString(0);
    assert DecimalString(0) == "0";
  }

  /** Absent parameters mean page 1 of size 20, newest first. */
  lemma ListerDefaults(statut: Option<string>)
    ensures ListerFilters(None, None, None, statut) == Ok(Filters(DefaultPage, DefaultSize, Some(DefaultSort), statut))
  {
  }

  /** A negative page is refused, whatever the size. */
  lemma ListerNegativePage(page: nat, size: Option<string>, sort: Option<string>, statut: Option<string>)
    requires page >= 1
    ensures ListerFilters(Some("-" + DecimalString(page)), size, sort, statut) == Err(BadRequest(MsgPageMin))
  {
    var s := "-" + DecimalString(page);
    ParseIntDecimalString(page);
    DigitsAreNotSpace(DecimalString(page));
    assert s[0] == '-' && s[1..] == DecimalString(page);
    assert TrimStart(s) == s;
    assert ParseInt(s) == Some(-(page as int));
  }

  /**
   * The transfer handler's own checks: debit account, credit account and amount must be
   * truthy, then the amount positive; the motif defaults to "Transfert intra-comptes".
   */
  function TransferPrecheck(body: TransferData): (r: Result<TransferData, Problem>)
    ensures r.Ok? ==> r.value.motif.Some? && MontantOk(r.value.montant)
  {
    if !Present(body.compteDebiteur) || !Present(body.compteCrediteur) || body.montant.None? || body.montant.value == 0
    then Err(BadRequest(MsgChampsObligatoires))
    else if body.montant.value <= 0 then Err(BadRequest(MsgMontantPositif))
    else Ok(TransferData(body.compteDebiteur, body.compteCrediteur, body.montant,
                         Some(OrElse(body.motif, DefaultMotif))))
  }

  /** `compteTransfertIntraCreer`, on the accounts `comptes`, at time `now`. */
  function TransferReply(comptes: seq<Compte>, body: TransferData, now: nat): Reply<Transaction> {
    match TransferPrecheck(body)
    case Err(p) => Failure(p)
    case Ok(d) =>
      match TransferCheck(comptes, d)
      case Some(e) => Failure(ErrorProblem(Message(e), Some(MsgSoldeInsuffisant), None))
      case None => Success(200, NewTransaction(d.compteDebiteur.value, d.compteCrediteur.value, d.montant.value, d.motif, now))
  }

  /**
   * The outcome of a transfer request: a missing field or a zero amount is 400 before the
   * sign is looked at; a negative amount 400; a service validation failure 500; an
   * unknown account 404; insufficient funds 400; otherwise 200 with the new record.
   */
  lemma TransferReplyStatus(comptes: seq<Compte>, body: TransferData, now: nat)
    ensures body.montant == Some(0) ==> TransferReply(comptes, body, now) == Failure(BadRequest(MsgChampsObligatoires))
    ensures TransferPrecheck(body).Ok? ==>
      var d := TransferPrecheck(body).value;
      match TransferCheck(comptes, d)
      case None => TransferReply(comptes, body, now).Success?
      case Some(e) =>
        (e.Invalid? ==> TransferReply(comptes, body, now) == Failure(Problem(500, MsgInattendue, None))) &&
        (e.DebitNotFound? || e.CreditNotFound? ==> TransferReply(comptes, body, now).problem.status == 404) &&
        (e.InsufficientFunds? ==> TransferReply(comptes, body, now) == Failure(BadRequest(MsgSoldeInsuffisant)))
  {
    if TransferPrecheck(body).Ok? {
      var d := TransferPrecheck(body).value;
      if TransferCheck(comptes, d).Some? {
        TransferErrorStatus(TransferCheck(comptes, d).value);
      }
    }
  }

  /**
   * A motif over 140 characters passes the handler's checks and is refused by the
   * service's validation, whose message the handler does not recognise: the reply is 500.
   */
  lemma LongMotifIs500(comptes: seq<Compte>, debit: string, credit: string, montant: int, motif: string, now: nat)
    requires IsValidNumero(debit) && IsValidNumero(credit) && montant > 0 && |motif| > MaxMotifLength
    ensures TransferReply(comptes, TransferData(Some(debit), Some(credit), Some(montant), Some(motif)), now)
      == Failure(Problem(500, MsgInattendue, None))
  {
    TransferErrorStatus(Invalid(MotifTropLong));
  }

  /** `aliasLister`: format check, then the account's aliases or a 404. */
  function AliasListerReply(comptes: seq<Compte>, alias: seq<Alias>, numero: string): Reply<seq<Alias>> {
    if !IsValidNumero(numero) then Failure(BadRequest(MsgFormatNumero))
    else if FindCompte(comptes, numero).None? then Failure(ErrorProblem(Message(CompteNotFound(numero)), None, None))
    else Success(200, AliasesOf(alias, numero))
  }

  /** `aliasCreer`: format check, the handler's own type check, then the use case's verdict. */
  function AliasCreerReply(comptes: seq<Compte>, alias: seq<Alias>, numero: string, aliasType: Option<string>,
                           cle: string, now: Timestamp): Reply<Alias> {
    if !IsValidNumero(numero) then Failure(BadRequest(MsgFormatNumero))
    else if !Present(aliasType) || !IsValidType(aliasType.value) then Failure(BadRequest(MsgTypeAlias))
    else match CreerAliasCheck(comptes, alias, numero, aliasType)
      case Some(e) => Failure(ErrorProblem(Message(e), Some(MarkerLimite), None))
      case None => Success(201, NewAlias(numero, aliasType.value, cle, now))
  }

  /**
   * Alias creation through the handler never ends in 500: the type error the service
   * could throw is pre-empted by the handler's own check, so the only failures are
   * 400 (format, type, limit) and 404 (unknown account).
   */
  lemma AliasCreerStatus(comptes: seq<Compte>, alias: seq<Alias>, numero: string, aliasType: Option<string>,
                         cle: string, now: Timestamp)
    ensures var r := AliasCreerReply(comptes, alias, numero, aliasType, cle, now);
      (r.Success? && r.status == 201) || (r.Failure? && (r.problem.status == 400 || r.problem.status == 404))
    ensures IsValidNumero(numero) && (aliasType.None? || !IsValidType(aliasType.value)) ==>
      AliasCreerReply(comptes, alias, numero, aliasType, cle, now) == Failure(BadRequest(MsgTypeAlias))
  {
    if IsValidNumero(numero) && Present(aliasType) && IsValidType(aliasType.value) {
      var check := CreerAliasCheck(comptes, alias, numero, aliasType);
      if check.Some? {
        AliasErrorStatus(check.value);
      }
    }
  }

  /** `aliasSupprimer`: format and UUID checks, then 404 for an unknown account or a missing alias, else 204. */
  function AliasSupprimerReply(comptes: seq<Compte>, alias: seq<Alias>, numero: string, cle: string): Reply<()> {
    if !IsValidNumero(numero) then Failure(BadRequest(MsgFormatNumero))
    else if !IsValidCle(cle) then Failure(BadRequest(MsgCleUuid))
    else if FindCompte(comptes, numero).None? then
      var msg := Message(CompteNotFound(numero));
      Failure(ErrorProblem(msg, None, Some(if Contains(msg, MarkerCompte) then "numero" else "cle")))
    else if !RemoveAlias(alias, numero, cle).deleted then
      Failure(Problem(404, "L'alias " + cle + " n'existe pas pour le compte " + numero, Some("cle")))
    else Success(204, ())
  }

  /**
   * Deletion replies 404 naming `numero` for an unknown account and naming `cle` when
   * the account holds no such alias; it succeeds exactly when an alias was removed.
   */
  lemma AliasSupprimerStatus(comptes: seq<Compte>, alias: seq<Alias>, numero: string, cle: string)
    requires IsValidNumero(numero) && IsValidCle(cle)
    ensures FindCompte(comptes, numero).None? ==>
      AliasSupprimerReply(comptes, alias, numero, cle) ==
      Failure(Problem(404, Message(CompteNotFound(numero)), Some("numero")))
    ensures FindCompte(comptes, numero).Some? ==>
      (AliasSupprimerReply(comptes, alias, numero, cle).Success? <==>
        exists j :: 0 <= j < |alias| && Matches(alias[j], numero, cle))
    ensures FindCompte(comptes, numero).Some? && AliasSupprimerReply(comptes, alias, numero, cle).Failure? ==>
      AliasSupprimerReply(comptes, alias, numero, cle).problem.status == 404 &&
      AliasSupprimerReply(comptes, alias, numero, cle).problem.invalidParam == Some("cle")
  {
    NotFoundMessage("Compte " + numero + " ");
    assert StartsWith(Message(CompteNotFound(numero)), MarkerCompte);
    RemoveAliasEffect(alias, numero, cle, numero);
  }

  /**
   * The first seeded key of the saturated account is not a version-4 uuid (its third
   * group starts with 7), so the deletion handler refuses it before any lookup.
   */
  lemma SeededKeyRejected(comptes: seq<Compte>, alias: seq<Alias>)
    ensures !IsValidCle(SaturatedKeys[0])
    ensures AliasSupprimerReply(comptes, alias, SaturatedCompte, SaturatedKeys[0]) == Failure(BadRequest(MsgCleUuid))
  {
    assert SaturatedKeys[0][14] == '7';
    assert !CleCharOk(14, SaturatedKeys[0][14]);
    assert forall i :: 3 <= i < |SaturatedCompte| ==> IsDigit(SaturatedCompte[i]);
  }

  /** Every handler that takes an account number refuses a malformed one before reading the store. */
  lemma FormatCheckedFirst(comptes: seq<Compte>, alias: seq<Alias>, numero: string, aliasType: Option<string>,
                           cle: string, now: Timestamp)
    requires !IsValidNumero(numero)
    ensures SoldeReply(comptes, numero) == Failure(BadRequest(MsgFormatNumero))
    ensures AliasListerReply(comptes, alias, numero) == Failure(BadRequest(MsgFormatNumero))
    ensures AliasCreerReply(comptes, alias, numero, aliasType, cle, now) == Failure(BadRequest(MsgFormatNumero))
    ensures AliasSupprimerReply(comptes, alias, numero, cle) == Failure(BadRequest(MsgFormatNumero))
  {
  }

  /** The controller: one use-case façade, hence one seeded store, per instance. */
  class CompteController {
    const useCases: CompteUseCases

    ghost predicate Valid()
      reads this, useCases, useCases.repo
    {
      useCases.Valid()
    }

    constructor(now: Timestamp)
      ensures Valid() && fresh(useCases) && fresh(useCases.repo)
      ensures useCases.repo.comptes == SeedComptes(now) && useCases.repo.alias == SeedAliases(now)
      ensures useCases.repo.transactions == SeedTransactions(now)
    {
      useCases := new CompteUseCases(now);
    }

    method CompteSoldeConsulter(numero: string) returns (reply: Reply<Compte>)
      requires Valid()
      ensures reply == SoldeReply(useCases.repo.comptes, numero)
    {
      if !IsValidNumero(numero) {
        return Failure(BadRequest(MsgFormatNumero));
      }
      var r := useCases.ConsulterSolde(numero);
      match r
      case Ok(c) => reply := Success(200, c);
      case Err(e) => reply := Failure(ErrorProblem(Message(e), None, Some("numero")));
    }

    method CompteTransfertIntraLister(page: Option<string>, size: Option<string>, sort: Option<string>,
                                      statut: Option<string>) returns (reply: Reply<Page>)
      requires Valid()
      ensures reply == ListerReply(useCases.repo.transactions, page, size, sort, statut)
    {
      var filters := ListerFilters(page, size, sort, statut);
      if filters.Err? {
        return Failure(filters.error);
      }
      var p := useCases.ListerTransactions(filters.value);
      reply := Success(200, p);
    }

    /** A transfer request: the record is appended exactly when the reply is a success. */
    method CompteTransfertIntraCreer(body: TransferData, now: nat) returns (reply: Reply<Transaction>)
      requires Valid()
      modifies useCases.repo
      ensures Valid()
      ensures reply == TransferReply(old(useCases.repo.comptes), body, now)
      ensures reply.Success? ==> useCases.repo.transactions == old(useCases.repo.transactions) + [reply.body]
      ensures reply.Failure? ==> useCases.repo.transactions == old(useCases.repo.transactions)
      ensures useCases.repo.comptes == old(useCases.repo.comptes) && useCases.repo.alias == old(useCases.repo.alias)
    {
      var pre := TransferPrecheck(body);
      if pre.Err? {
        return Failure(pre.error);
      }
      var r := useCases.CreerTransaction(pre.value, now);
      match r
      case Ok(t) => reply := Success(200, t);
      case Err(e) => reply := Failure(ErrorProblem(Message(e), Some(MsgSoldeInsuffisant), None));
    }

    method AliasLister(numero: string) returns (reply: Reply<seq<Alias>>)
      requires Valid()
      ensures reply == AliasListerReply(useCases.repo.comptes, useCases.repo.alias, numero)
    {
      if !IsValidNumero(numero) {
        return Failure(BadRequest(MsgFormatNumero));
      }
      var r := useCases.ListerAlias(numero);
      match r
      case Ok(list) => reply := Success(200, list);
      case Err(e) => reply := Failure(ErrorProblem(Message(e), None, None));
    }

    /** An alias request: the alias is inserted exactly when the reply is a success. */
    method AliasCreer(numero: string, aliasType: Option<string>, cle: string, now: Timestamp)
      returns (reply: Reply<Alias>)
      requires Valid()
      modifies useCases.repo
      ensures Valid()
      ensures reply == AliasCreerReply(old(useCases.repo.comptes), old(useCases.repo.alias), numero, aliasType, cle, now)
      ensures reply.Success? ==> useCases.repo.alias == InsertAlias(old(useCases.repo.alias), reply.body)
      ensures reply.Failure? ==> useCases.repo.alias == old(useCases.repo.alias)
      ensures useCases.repo.comptes == old(useCases.repo.comptes)
      ensures useCases.repo.transactions == old(useCases.repo.transactions)
    {
      if !IsValidNumero(numero) {
        return Failure(BadRequest(MsgFormatNumero));
      }
      if !Present(aliasType) || !IsValidType(aliasType.value) {
        return Failure(BadRequest(MsgTypeAlias));
      }
      var r := useCases.CreerAlias(numero, aliasType, cle, now);
      match r
      case Ok(a) => reply := Success(201, a);
      case Err(e) => reply := Failure(ErrorProblem(Message(e), Some(MarkerLimite), None));
    }

    /** A deletion request: the alias table changes exactly when the reply is a success. */
    method AliasSupprimer(numero: string, cle: string) returns (reply: Reply<()>)
      requires Valid()
      modifies useCases.repo
      ensures Valid()
      ensures reply == AliasSupprimerReply(old(useCases.repo.comptes), old(useCases.repo.alias), numero, cle)
      ensures reply.Success? ==> useCases.repo.alias == RemoveAlias(old(useCases.repo.alias), numero, cle).remaining
      ensures reply.Failure? ==> useCases.repo.alias == old(useCases.repo.alias)
      ensures useCases.repo.comptes == old(useCases.repo.comptes)
      ensures useCases.repo.transactions == old(useCases.repo.transactions)
    {
      if !IsValidNumero(numero) {
        return Failure(BadRequest(MsgFormatNumero));
      }
      if !IsValidCle(cle) {
        return Failure(BadRequest(MsgCleUuid));
      }
      var r := useCases.SupprimerAlias(numero, cle);
      match r
      case Err(e) =>
        reply := Failure(ErrorProblem(Message(e), None, Some(if Contains(Message(e), MarkerCompte) then "numero" else "cle")));
      case Ok(deleted) =>
        if !deleted {
          reply := Failure(Problem(404, "L'alias " + cle + " n'existe pas pour le compte " + numero, Some("cle")));
        } else {
          reply := Success(204, ());
        }
    }
  }
}
