# Account domain of the PI-SPI participant simulator, in Dafny

This project models the account domain of a simulator of the BCEAO instant-payment
(PI-SPI) participant API. The simulator is a Node.js service in a hexagonal layout:
HTTP controller, then use cases, then domain service, then an in-memory repository.
The model covers the following parts:

- **Repository** (`CompteRepositoryImpl`). It holds the seeded accounts, aliases and
  transfers.
  - Transfer listing: a status filter, a stable signed-field sort, offset pagination
    and the `meta` block.
  - Alias insertion with its overflow eviction: an account holding three or more
    aliases is cut back to its first two in store order.
  - Alias deletion by (account, key).
- **Domain service** (`CompteService`). Transfers are validated fail-fast, then both
  accounts are looked up, then the balance is checked. Alias creation checks the type,
  then the account, then the business cap of 20.
- **Use-case façade** (`CompteUseCases`). It checks that the account exists before
  delegating, which changes which error wins.
- **Entity validators**: account numbers, alias types and keys, the collect-all
  transfer validator, webhook event lists.
- **Account controller**. It is modelled as pure functions from request fields to a
  reply. They cover the parameter checks and the classification of thrown messages by
  substring ("non trouvé" → 404, "Solde insuffisant" / "Limite d'alias dépassée" → 400,
  anything else → 500). A controller class runs them against its use cases.
- **Webhook controller.** A registry class holds the id-keyed map of at most ten
  subscriptions and the five handlers over it.
- **OAuth2 and mTLS middleware**: the scope rule and the accept/401/403 decisions.

## How the model is built

- **Stateful parts.** Parts whose state the source updates in place are classes:
  - the repository, with three `seq` fields;
  - the service, use-case façade and controller, which hold their collaborators as
    `const` fields;
  - the webhook registry, with a `map` field.

  Their methods state the whole new state. They are tied to pure specification
  functions (`InsertAlias`, `RemoveAlias`, `Query`, `TransferCheck`, `AliasCheck`,
  `CreerAliasCheck`, the controller's `…Reply` functions, `Lookup`), and the lemmas
  are proved about those functions.
- **Pure parts.** Entities, validators and the middleware are datatypes and functions.
- **JavaScript semantics** are written out in module `Js`:
  - truthiness;
  - `startsWith` and `includes`;
  - `slice` with its clamping;
  - `parseInt`, where NaN is `None`;
  - the decimal rendering of a number.
- **Thrown errors.** An error is an `Err` carrying a `DomainError`. Its `Message` is the
  text the source throws, so the controller's substring classification runs on the
  real messages.
- **Foreign inputs.** The clock, generated uuids, random secrets and URL parsing are
  parameters:
  - `now`: milliseconds for accounts, aliases and transfers; an ISO string for webhooks;
  - `cle` and `freshId`: generated uuids;
  - `freshSecret`: the random secret;
  - `isUrl`: URL parsing.

The source has no explicit loops. `find`, `filter`, `findIndex`, `slice` and `sort` are
library calls, modelled as recursive functions. The store's updates (`push`, `splice`,
reassignment) are field assignments in methods.

Behaviour the model keeps as written:

- **Eviction order.** Eviction keeps an account's first two aliases in store order,
  not the two newest. For example, after two additions to the seeded ordinary
  account, the first addition is the one dropped (`Repository.EvictionIgnoresDates`).
- **Validation errors give 500.** The service's validation errors ("motif trop long",
  a malformed account number) match neither recognised substring in the transfer
  handler, so they end as 500 (`ComptesController.LongMotifIs500`).
- **Seeded keys.** The first seeded key of the saturated account has version digit 7,
  so the deletion handler refuses it as a malformed uuid
  (`ComptesController.SeededKeyRejected`).
- **Webhook ids.** A webhook created with a body `id` outside the uuid pattern is
  stored but unreachable by every id-taking handler
  (`WebhooksController.MalformedIdUnreachable`). At the cap of ten, even a creation
  that would replace an existing id is refused.
- **Dead branches.** The 403 branch of the OAuth2 middleware is dead, and so is the
  401 branch of the mTLS middleware.

## Model

| member | source | states |
|---|---|---|
| Js.ParseIntDecimalString | controllers/comptes.js:72-73 | `parseInt` reads back the decimal rendering of every natural number |
| Js.SliceNonNegative | infrastructure/repositories/CompteRepositoryImpl.js:225 | `slice` with non-negative bounds is empty from the end on, and otherwise the window cut at the end |
| Js.DecimalString | domain/entities/Transaction.js:8 | the rendering of a number is a non-empty string of digits without a leading zero |
| CompteEntity.ValidNumeroShape | domain/entities/Compte.js:17-19 | a number is valid iff it is "CIC" followed by a non-empty string of decimal digits |
| CompteEntity.RejectedNumeros | domain/entities/Compte.js:18 | "CIC" alone, a lower-case prefix, a trailing non-digit and a leading character are refused |
| CompteEntity.NewCompte | domain/entities/Compte.js:5-10 | the currency defaults to XOF only when omitted; number, balance and time stamp are kept |
| AliasEntity.NewAlias | domain/entities/Alias.js:8-13 | a new alias carries the given account, type, generated key and creation time |
| AliasEntity.ValidTypes | domain/entities/Alias.js:20-22 | a type is valid iff it is SHID or MCOD |
| AliasEntity.CleGroups | domain/entities/Alias.js:29-32 | a 8-4-4-4-12 key is accepted iff every group is hex, the third starts with 4 and the fourth with 8, 9, a or b |
| AliasEntity.ValidCleSplits | domain/entities/Alias.js:29-32 | every accepted key has the 8-4-4-4-12 layout |
| AliasEntity.CleCaseInsensitive | domain/entities/Alias.js:30 | a key and its lower-case form are accepted alike (the pattern's i flag) |
| TransactionEntity.Validate | domain/entities/Transaction.js:22-45 | every defect is reported, none twice, in the order debit, credit, montant, motif; valid iff no error |
| TransactionEntity.MontantReportedOnce | domain/entities/Transaction.js:33-35 | a missing, zero or negative amount yields exactly one montant error |
| TransactionEntity.MotifBoundary | domain/entities/Transaction.js:37-39 | no motif and a 140-character motif pass; 141 characters fail |
| TransactionEntity.AllFourReported | domain/entities/Transaction.js:22-39 | a payload with all four defects gets all four errors, in order |
| TransactionEntity.TxId | domain/entities/Transaction.js:8 | the id is "TXN" followed by a decimal rendering that reads back as the clock value |
| TransactionEntity.NewTransaction | domain/entities/Transaction.js:7-15 | status INITIE, id and date from the clock, the given accounts and amount, motif defaulted only when absent |
| TransactionEntity.TxIdDeterminedByClock | domain/entities/Transaction.js:8 | two ids are equal iff they were made in the same millisecond |
| WebhookEntity.ValidateEventsFacts | domain/entities/Webhook.js:32-53 | a non-array is refused, the empty array accepted, and a concatenation is accepted iff both parts are |
| WebhookEntity.NewWebhook | domain/entities/Webhook.js:5-13 | id kept when supplied else fresh; events default to []; alias and modification date to null; secret and creation date defaulted |
| AliasStore.AliasesOfConcat | infrastructure/repositories/CompteRepositoryImpl.js:269 | per-account selection distributes over concatenation |
| AliasStore.AliasesOfOwned | infrastructure/repositories/CompteRepositoryImpl.js:269 | a list of one account's aliases selects to itself for that account and to nothing for the others |
| AliasStore.OthersKeepLists | infrastructure/repositories/CompteRepositoryImpl.js:291 | dropping one account's aliases leaves every other account's list unchanged |
| AliasStore.InsertAliasOwnList | infrastructure/repositories/CompteRepositoryImpl.js:288-299 | after insertion the account's list is its old list (cut to its first two when it held three or more) plus the new alias; its count is old+1 below three, else 3 |
| AliasStore.InsertAliasOtherLists | infrastructure/repositories/CompteRepositoryImpl.js:291-293 | insertion leaves every other account's list and their relative order unchanged |
| AliasStore.OthersOfOthers | infrastructure/repositories/CompteRepositoryImpl.js:291 | removing an account's aliases twice is removing them once |
| AliasStore.FindAliasIndex | infrastructure/repositories/CompteRepositoryImpl.js:335 | the index found is the first alias matching both account and key; None iff there is no match |
| AliasStore.RemoveAliasFirstMatch | infrastructure/repositories/CompteRepositoryImpl.js:335-345 | when a deletion succeeds, the alias spliced out is the first one carrying both the account and the key |
| AliasStore.RemoveAliasEffect | infrastructure/repositories/CompteRepositoryImpl.js:335-345 | deletion returns true iff a match exists and then removes exactly one of the account's aliases; otherwise false and the table unchanged; other accounts untouched |
| AliasStore.DeleteTwice | infrastructure/repositories/CompteRepositoryImpl.js:335-345 | with distinct keys, deleting the same key twice answers true then false |
| AliasStore.InsertKeepsCaps | infrastructure/repositories/CompteRepositoryImpl.js:286-304 | insertion keeps the caps (saturated account ≤ 20, every other ≤ 3) |
| AliasStore.RemoveKeepsCaps | infrastructure/repositories/CompteRepositoryImpl.js:332-346 | deletion keeps the caps |
| AliasStore.OnlySaturatedReachesBusinessCap | domain/services/CompteService.js:88-94 | under the caps only the saturated seeded account can hold 20 aliases; after an insertion any account holds at most 3 |
| TransactionStore.WithStatut | infrastructure/repositories/CompteRepositoryImpl.js:205-207 | the filter keeps only records with the status and never grows the log |
| TransactionStore.WithStatutCounts | infrastructure/repositories/CompteRepositoryImpl.js:205-207 | each record with the status is kept as often as it occurs, the others never |
| TransactionStore.ParseSort | infrastructure/repositories/CompteRepositoryImpl.js:211-212 | descending iff the parameter starts with "-"; the field is dateCreation or montant exactly for those names, with or without "-" |
| TransactionStore.InsertPermutes | infrastructure/repositories/CompteRepositoryImpl.js:214-219 | insertion adds exactly the one element |
| TransactionStore.InsertSorted | infrastructure/repositories/CompteRepositoryImpl.js:214-219 | insertion into an ordered list keeps it ordered |
| TransactionStore.SortCorrect | infrastructure/repositories/CompteRepositoryImpl.js:214-219 | the sort returns a permutation of its input, ordered by the comparator's key |
| TransactionStore.InsertWithKey | infrastructure/repositories/CompteRepositoryImpl.js:214-219 | inserting a record puts it ahead of the records with its key and leaves the order of every other key's records as it was |
| TransactionStore.SortStable | infrastructure/repositories/CompteRepositoryImpl.js:214-219 | the sort is stable: for every key, the records carrying it come out in their store order |
| TransactionStore.SortKeepsSorted | infrastructure/repositories/CompteRepositoryImpl.js:214-219 | a list already ordered by the key is returned unchanged |
| TransactionStore.SortIdempotent | infrastructure/repositories/CompteRepositoryImpl.js:214-219 | sorting twice is sorting once |
| TransactionStore.UnorderedKeepsStoreOrder | infrastructure/repositories/CompteRepositoryImpl.js:218 | a field whose differences are all NaN leaves store order |
| TransactionStore.SortDirection | infrastructure/repositories/CompteRepositoryImpl.js:210-219 | "-dateCreation" and "-montant" order descending, "dateCreation" and "montant" ascending |
| TransactionStore.Offset | infrastructure/repositories/CompteRepositoryImpl.js:223-224 | the start index is non-negative for a valid page and ends size records before page*size |
| TransactionStore.QueryStatut | infrastructure/repositories/CompteRepositoryImpl.js:205-230 | with a status every returned record has it and total (line 230) counts all matching records; the selection is a permutation of the filtered log |
| TransactionStore.QueryWindow | infrastructure/repositories/CompteRepositoryImpl.js:223-225 | the page is the slice [(page-1)*size, (page-1)*size+size) of the selection, cut at its end, so at most size records |
| TransactionStore.QueryLinks | infrastructure/repositories/CompteRepositoryImpl.js:233-234 | next is page+1 iff page*size < total, else null; prev is page-1 iff page > 1, else null |
| TransactionStore.QueryLocates | infrastructure/repositories/CompteRepositoryImpl.js:223-225 | the i-th selected record is on page i/size+1 at position i%size |
| Repository.SeedAliasCounts | infrastructure/repositories/CompteRepositoryImpl.js:24-159 | the seed gives the saturated account 20 aliases, the ordinary account 2 and every other account none, so the caps hold |
| Repository.FindCompte | infrastructure/repositories/CompteRepositoryImpl.js:190 | a found account is in the store with that number; None iff no account has it |
| Repository.SeedLookups | infrastructure/repositories/CompteRepositoryImpl.js:16-22 | each of the five seeded accounts (including CIC7777777777777777777 at line 21) is found with its seeded balance in XOF |
| Repository.SeedFirstPage | infrastructure/repositories/CompteRepositoryImpl.js:161-180 | page 1 of size 1 of the seeded log, newest first, is TXN002, with total 2, next 2 and no prev |
| Repository.EvictionIgnoresDates | infrastructure/repositories/CompteRepositoryImpl.js:288-299 | two additions to the ordinary account seeded at lines 26-37 leave its two seeded aliases and the second addition: the newer first addition is evicted |
| Repository.CompteRepositoryImpl.constructor | infrastructure/repositories/CompteRepositoryImpl.js:13-181 | the store starts with the seeded accounts, aliases and transfers, and the caps hold |
| Repository.CompteRepositoryImpl.FindCompteByNumero | infrastructure/repositories/CompteRepositoryImpl.js:188-192 | the account with the number, or None iff there is none |
| Repository.CompteRepositoryImpl.FindByNumero | infrastructure/repositories/CompteRepositoryImpl.js:311-314 | the account with the number, or None iff there is none |
| Repository.CompteRepositoryImpl.FindTransactions | infrastructure/repositories/CompteRepositoryImpl.js:199-237 | the page of the query on the log, at most size records, total at most the log's length; the log is not changed |
| Repository.CompteRepositoryImpl.SaveTransaction | infrastructure/repositories/CompteRepositoryImpl.js:244-260 | appends exactly one record, in status INITIE, and changes nothing else |
| Repository.CompteRepositoryImpl.FindAliasByCompte | infrastructure/repositories/CompteRepositoryImpl.js:267-278 | the account's aliases, in store order |
| Repository.CompteRepositoryImpl.GetAliasCount | infrastructure/repositories/CompteRepositoryImpl.js:321-324 | the length of the account's alias list, at most 20 for the saturated account and 3 for any other |
| Repository.CompteRepositoryImpl.SaveAlias | infrastructure/repositories/CompteRepositoryImpl.js:286-304 | evicts down to the first two when the account holds three or more, then appends; the count becomes old+1 or 3; the caps are kept |
| Repository.CompteRepositoryImpl.DeleteAlias | infrastructure/repositories/CompteRepositoryImpl.js:332-346 | splices out the first (account, key) match and answers true iff there was one; otherwise the table is unchanged |
| Service.FirstDefect | domain/services/CompteService.js:118-134 | the fail-fast check fails iff the collect-all validator does, with its first error, the lowest-ranked defect |
| Service.TransferCheck | domain/services/CompteService.js:34-55 | an accepted transfer has well-formed accounts and a positive amount |
| Service.ValidationPrecedesLookup | domain/services/CompteService.js:36-40 | an invalid payload fails with its first defect whatever the store holds |
| Service.DebitReportedBeforeCredit | domain/services/CompteService.js:42-47 | with an unknown debit account, that account is reported, whatever the credit account |
| Service.TransferAcceptedIff | domain/services/CompteService.js:34-55 | a transfer is accepted iff valid, both accounts exist and the debit balance covers the amount; funds are short iff balance < amount; a known debit with an unknown credit account reports the credit account |
| Service.AliasCheck | domain/services/CompteService.js:78-95 | an accepted alias request has a valid type |
| Service.AliasAcceptedIff | domain/services/CompteService.js:78-95 | an alias is created iff the type is SHID or MCOD, the account exists and holds fewer than 20; the limit can only hit the saturated account |
| Service.TypeCheckedFirst | domain/services/CompteService.js:80-86 | an invalid type is reported whatever the store holds, even for an unknown account |
| Service.SeedAliasLimit | domain/services/CompteService.js:88-92 | from the seed, the saturated account is refused a new alias and the ordinary account gets one |
| Service.SeedBalanceBoundary | domain/services/CompteService.js:50-52 | from the seed, the low-balance account can send its exact balance but not one unit more |
| Service.CompteNumerosValid | infrastructure/repositories/CompteRepositoryImpl.js:17-20 | the seeded ordinary and low-balance numbers are well formed |
| Service.CompteService.constructor | domain/services/CompteService.js:7-9 | the service works on the repository it is given |
| Service.CompteService.GetCompte | domain/services/CompteService.js:16-18 | the repository's lookup, passed through |
| Service.CompteService.GetTransactions | domain/services/CompteService.js:25-27 | the repository's page, passed through |
| Service.CompteService.CreateTransaction | domain/services/CompteService.js:34-55 | fails iff the transfer check does, with its error and no change; else appends exactly the new record; balances never change |
| Service.CompteService.GetAlias | domain/services/CompteService.js:62-70 | not found for an unknown account, else its aliases |
| Service.CompteService.CreateAlias | domain/services/CompteService.js:78-95 | fails iff the alias check does, leaving the store unchanged; else inserts the new alias |
| Service.CompteService.DeleteAlias | domain/services/CompteService.js:103-111 | not found with the store untouched for an unknown account, else the repository's answer and effect |
| UseCases.CreerAliasCheck | application/use-cases/CompteUseCases.js:87-93 | for a known account the verdict is the service's |
| UseCases.NotFoundWinsOverType | application/use-cases/CompteUseCases.js:87-93 | for an unknown account with an invalid type the façade reports not found where the service would report the type |
| UseCases.CreerAliasAgrees | application/use-cases/CompteUseCases.js:87-93 | the façade accepts iff the service would, and differs from it only by reporting not found |
| UseCases.CompteUseCases.constructor | application/use-cases/CompteUseCases.js:11-15 | each façade builds its own fresh seeded repository and a service over it |
| UseCases.CompteUseCases.ConsulterSolde | application/use-cases/CompteUseCases.js:22-33 | "Compte … non trouvé" iff the lookup finds nothing, else that account |
| UseCases.CompteUseCases.ListerTransactions | application/use-cases/CompteUseCases.js:40-47 | the service's page, unchanged |
| UseCases.CompteUseCases.CreerTransaction | application/use-cases/CompteUseCases.js:54-61 | the service's outcome and effect, unchanged |
| UseCases.CompteUseCases.ListerAlias | application/use-cases/CompteUseCases.js:68-79 | not found for an unknown account, else its aliases |
| UseCases.CompteUseCases.CreerAlias | application/use-cases/CompteUseCases.js:87-98 | fails iff the façade's verdict is an error, with the store unchanged; else inserts the new alias |
| UseCases.CompteUseCases.SupprimerAlias | application/use-cases/CompteUseCases.js:106-117 | not found with the store untouched for an unknown account, else the deletion's answer and effect |
| ComptesController.NotFoundMessage | controllers/comptes.js:39 | every "… non trouvé" message is recognised as not found |
| ComptesController.SoldeMessageClass | controllers/comptes.js:175-191 | "Solde insuffisant" is not a not-found message and carries its own marker |
| ComptesController.UnmarkedMessage | controllers/comptes.js:175-191 | a message without 'é' and 'S' matches neither marker |
| ComptesController.FieldMessageClass | controllers/comptes.js:175-198 | no service validation message matches either marker |
| ComptesController.LimiteMessageClass | controllers/comptes.js:283-299 | the alias-limit message is not a not-found message and carries the limit marker |
| ComptesController.TransferErrorStatus | controllers/comptes.js:175-198 | unknown accounts give 404, insufficient funds 400, service validation errors 500 |
| ComptesController.AliasErrorStatus | controllers/comptes.js:283-299 | an unknown account gives 404, the alias limit 400 |
| ComptesController.ParamOr | controllers/comptes.js:72-73 | a missing parameter, a NaN or a zero gives the default; any other parsed value is kept |
| ComptesController.ListerFilters | controllers/comptes.js:69-100 | for any parameter strings, page and size are the parsed values, or 1 and 20 when a value is absent, NaN or 0; accepted iff page ≥ 1 and 1 ≤ size ≤ 100, then with exactly those values, the given status and the given sort or "-dateCreation"; a bad page is refused first, then a size below 1, then a size above 100, each with its own message |
| ComptesController.ListerInRange | controllers/comptes.js:69-107 | decimal page and size in range are served as given |
| ComptesController.ListerOversize | controllers/comptes.js:93-100 | a size over 100 is refused |
| ComptesController.ListerZeroSize | controllers/comptes.js:69-73 | a size of "0" is falsy once parsed and is served as 20 |
| ComptesController.ListerDefaults | controllers/comptes.js:69-73 | absent parameters mean page 1, size 20, "-dateCreation" |
| ComptesController.ListerNegativePage | controllers/comptes.js:72-82 | a negative page is refused |
| ComptesController.TransferPrecheck | controllers/comptes.js:137-160 | an accepted body has a motif and a positive amount |
| ComptesController.TransferReplyStatus | controllers/comptes.js:137-198 | a zero amount is "obligatoire" before the sign check; then validation 500, unknown account 404, short funds 400, else success |
| ComptesController.LongMotifIs500 | controllers/comptes.js:156-198 | a motif over 140 characters passes the handler's checks and ends as 500 |
| ComptesController.AliasCreerStatus | controllers/comptes.js:250-308 | alias creation ends in 201, 400 or 404, never 500; a missing or invalid type is refused by the handler |
| ComptesController.AliasSupprimerStatus | controllers/comptes.js:339-391 | an unknown account is 404 naming numero; a missing alias 404 naming cle; success iff an alias was removed |
| ComptesController.SeededKeyRejected | controllers/comptes.js:329-337 | the first seeded key of the saturated account is not a v4 uuid and is refused before any lookup |
| ComptesController.FormatCheckedFirst | controllers/comptes.js:22 | the four handlers taking a number (the same check at lines 211, 256 and 319) refuse a malformed one whatever the store holds |
| ComptesController.CompteController.constructor | controllers/comptes.js:9-11 | the controller starts over a fresh seeded façade |
| ComptesController.CompteController.CompteSoldeConsulter | controllers/comptes.js:17-61 | the reply is the balance handler's verdict on the store |
| ComptesController.CompteController.CompteTransfertIntraLister | controllers/comptes.js:67-126 | the reply is the listing handler's verdict on the log |
| ComptesController.CompteController.CompteTransfertIntraCreer | controllers/comptes.js:132-200 | the reply is the transfer handler's verdict; the record is appended iff the reply is a success |
| ComptesController.CompteController.AliasLister | controllers/comptes.js:206-244 | the reply is the alias-list handler's verdict on the store |
| ComptesController.CompteController.AliasCreer | controllers/comptes.js:250-308 | the reply is the alias-creation handler's verdict; the alias is inserted iff the reply is a success |
| ComptesController.CompteController.AliasSupprimer | controllers/comptes.js:314-400 | the reply is the deletion handler's verdict; the alias is removed iff the reply is a success |
| WebhooksController.ValidateWebhookData | controllers/webhooks.js:24-52 | at most one error per field, callbackUrl before events; accepted iff the URL is present and parseable and events is an array of known names |
| WebhooksController.ValidationReasons | controllers/webhooks.js:27-49 | a missing URL is "obligatoire", an unparsable one "invalide"; independently of the URL, falsy events end the list with "obligatoire" and truthy but unusable events (a non-array, an unknown name) with "invalide"; an empty event list is accepted |
| WebhooksController.Lookup | controllers/webhooks.js:60-78 | found iff the id matches the v4 uuid pattern and is registered, and then it is the registered webhook; an id outside the pattern is the 400 "invalid id" refusal; a well-formed unknown id is the 404 "unknown webhook" refusal |
| WebhooksController.MalformedIdUnreachable | controllers/webhooks.js:60-68 | a webhook filed under a non-uuid id (lines 116-117 file it under any id) is refused as a malformed id whatever the registry holds |
| WebhooksController.Modified | controllers/webhooks.js:167-170 | modification replaces callbackUrl, events, alias (null when absent) and the modification date, and keeps id, secret and creation date |
| WebhooksController.FilingKeepsRegistry | controllers/webhooks.js:106-117 | filing below the cap keeps every entry under its own id, at most ten, growing by at most one |
| WebhooksController.UpdateKeepsRegistry | controllers/webhooks.js:167-170 | an update that keeps the id (also the secret renewal at lines 245-246) keeps the registry well formed and its size |
| WebhooksController.DeleteKeepsRegistry | controllers/webhooks.js:207 | deletion removes exactly one entry and keeps the registry well formed |
| WebhooksController.WebhookRegistry.constructor | controllers/webhooks.js:5 | the registry starts empty |
| WebhooksController.WebhookRegistry.Consulter | controllers/webhooks.js:55-87 | the webhook iff the id is a uuid and registered, else the lookup's refusal |
| WebhooksController.WebhookRegistry.Creer | controllers/webhooks.js:90-126 | invalid body refused, then at ten entries refused, else the new webhook filed under its id; the registry never exceeds ten |
| WebhooksController.WebhookRegistry.Modifier | controllers/webhooks.js:129-179 | id checks before body validation; on success only that entry is replaced, by its modified form |
| WebhooksController.WebhookRegistry.Supprimer | controllers/webhooks.js:182-216 | on success exactly the given id is removed; else nothing changes |
| WebhooksController.WebhookRegistry.SecretRenouveler | controllers/webhooks.js:219-255 | on success only the secret and modification date of that entry change |
| OAuth2.RequiredScope | middleware/oauth2.js:7-26 | every scope an endpoint can require is in the granted list |
| OAuth2.ScopeRules | middleware/oauth2.js:9-25 | account GETs outside the transactions need compte.read; the transactions endpoint needs the read scope for GET and the write scope otherwise; alias POST and DELETE their scopes; other paths none |
| OAuth2.AliasListNeedsCompteRead | middleware/oauth2.js:9-20 | the alias list under /comptes/ needs compte.read, not alias.read |
| OAuth2.OAuth2Accepts | middleware/oauth2.js:28-101 | the 403 branch is unreachable; a request passes iff it is a bypass route or carries "Bearer mock-token-…" |
| OAuth2.OAuth2Refusals | middleware/oauth2.js:36-51 | a missing or non-bearer header gives the "manquant" 401; a bearer token of the wrong form is thrown to the catch at lines 92-99 and gets the "invalide" 401 |
| Mtls.MtlsAccepts | middleware/mtls.js:5-44 | the 401 branch is unreachable; a request passes iff bypassed, without a certificate, or with one mentioning BCEAO or PI-SPI; else 403 |

## Left out

- `toJSON` of the four entities is not a separate member. Accounts, aliases,
  transfers and webhooks are value datatypes with exactly the fields `toJSON`
  renders, so it is the identity on them.
- The amount is an integer number of minor units. Non-integer, string-typed or boolean
  amounts and JavaScript's loose comparisons on them are not modelled. Neither are
  `null` body or query values (a field is present or absent) and array-valued query
  parameters. Every other body field (the transfer's accounts, motif, the alias type,
  the webhook's id, URL, secret and dates) is a string or absent, so a number sent
  there (a numeric `compteDebiteur` that is truthy yet fails the account pattern, a
  numeric webhook `id` filed under a key no path `:id` reaches) is not modelled.
- Lengths are counted in `char`s, not in UTF-16 code units.
- Logging, `async`/`await` and the HTTP plumbing are not modelled: `res`, headers and
  the problem bodies' `type`/`title` fields. Only the status, the detail and the named
  invalid parameter are kept.
- The 500 `catch` branches of the listing and webhook handlers are not modelled. Only
  a runtime fault could reach them. The OAuth2 middleware's `catch` is modelled: the
  token check throws on purpose for every bearer token not starting with
  `mock-token-`, and the catch turns that into the "invalide" 401.
- Page and size are exact integers. JavaScript numbers are doubles: a page above 2^53
  loses precision, and one with hundreds of digits parses to `Infinity`, which the
  JSON `meta` renders as `null`. Neither effect is modelled.
- `TransactionEntity.NewTransaction` reads the clock once, for both the id and the
  creation date. The source reads `Date.now()` for the id and `moment()` for the date
  separately, so the two can differ by a millisecond there. The model makes them
  always equal. The date is kept as the millisecond count, not its ISO string.
- The clock, uuid generation, `crypto.randomBytes` and `new URL` are parameters.
  Uniqueness of generated keys and ids is not assumed. As a consequence,
  `TransactionEntity.TxIdDeterminedByClock` shows that two transfers made in the same
  millisecond share their id.
- Sorting by a field other than `dateCreation` or `montant` is modelled as "all
  differences NaN". That leaves store order. A numeric-looking `motif` would give an
  inconsistent comparator, which is not modelled.
- The seeded alias keys of the saturated account are reproduced. Their creation times
  are `now - (20 - i)` days, as in the source.
- `server.js` (route wiring, the inline token endpoint), `controllers/oauth.js` (never
  routed), `middleware/error-handler.js` and the abstract port
  `domain/ports/CompteRepository.js` are not part of this model.
