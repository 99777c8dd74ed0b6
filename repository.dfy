/**
 * `CompteRepositoryImpl`: the in-memory store of accounts, aliases and transfers.
 * The three arrays are fields the methods update in place; the clock reading and
 * the generated alias key are parameters.
 */
module Repository {
  import opened Wrappers
  import opened Js
  import opened CompteEntity
  import opened AliasEntity
  import opened TransactionEntity
  import opened AliasStore
  import opened TransactionStore

  const Minute: int := 60 * 1000
  const Hour: int := 60 * Minute
  const Day: int := 24 * Hour

  const Compte822: string := "CIC2344256727788288822"
  const Compte823: string := "CIC2344256727788288823"
  const Compte888: string := "CIC8888888888888888888"
  const Compte777: string := "CIC7777777777777777777"

  /** The five seeded accounts, all in XOF, stamped with the construction time. */
  function SeedComptes(now: Timestamp): seq<Compte> {
    [NewCompte(Compte822, 1500000, Some(DefaultDevise), now),
     NewCompte(Compte823, 750000, Some(DefaultDevise), now),
     NewCompte(SaturatedCompte, 100000, Some(DefaultDevise), now),
     NewCompte(Compte888, 50000, Some(DefaultDevise), now),
     NewCompte(Compte777, 200000, Some(DefaultDevise), now)]
  }

  /** The two aliases of the ordinary account; the first in store order is the newer one. */
  function Seed822(now: Timestamp): seq<Alias> {
    [Alias("8b1b2499-3e50-435b-b757-ac7a83d8aa7f", "SHID", Compte822, now - Day),
     Alias("9c2c3500-4f61-4c6c-a868-bd8b94e9bb8f", "MCOD", Compte822, now - 2 * Day)]
  }

  /** The keys of the saturated account's twenty aliases, oldest first. */
  const SaturatedKeys: seq<string> := [
    "a1b2c3d4-e5f6-7890-abcd-ef1234567890", "b2c3d4e5-f6g7-8901-bcde-f23456789012",
    "c3d4e5f6-g7h8-9012-cdef-345678901234", "d4e5f6g7-h8i9-0123-def0-456789012345",
    "e5f6g7h8-i9j0-1234-ef01-567890123456", "f6g7h8i9-j0k1-2345-f012-678901234567",
    "g7h8i9j0-k1l2-3456-0123-789012345678", "h8i9j0k1-l2m3-4567-1234-890123456789",
    "i9j0k1l2-m3n4-5678-2345-901234567890", "j0k1l2m3-n4o5-6789-3456-012345678901",
    "k1l2m3n4-o5p6-7890-4567-123456789012", "l2m3n4o5-p6q7-8901-5678-234567890123",
    "m3n4o5p6-q7r8-9012-6789-345678901234", "n4o5p6q7-r8s9-0123-7890-456789012345",
    "o5p6q7r8-s9t0-1234-8901-567890123456", "p6q7r8s9-t0u1-2345-9012-678901234567",
    "q7r8s9t0-u1v2-3456-0123-789012345678", "r8s9t0u1-v2w3-4567-1234-890123456789",
    "s9t0u1v2-w3x4-5678-2345-901234567890", "t0u1v2w3-x4y5-6789-3456-012345678901"]

  /** The saturated account's aliases: types alternate SHID, MCOD; created 20 days ago down to 1. */
  function SeedSaturated(now: Timestamp): seq<Alias> {
    seq(20, i requires 0 <= i < 20 =>
      Alias(SaturatedKeys[i], if i % 2 == 0 then "SHID" else "MCOD", SaturatedCompte, now - (20 - i) * Day))
  }

  function SeedAliases(now: Timestamp): seq<Alias> {
    Seed822(now) + SeedSaturated(now)
  }

  /** The two seeded transfers between the two ordinary accounts. */
  function SeedTransactions(now: Timestamp): seq<Transaction> {
    [Transaction("TXN001", StatutIrrevocable, now - Hour, Compte822, Compte823, 100000, "Transfert test"),
     Transaction("TXN002", StatutInitie, now - 30 * Minute, Compte823, Compte822, 50000, "Paiement service")]
  }

  /**
   * The seeded alias table: the saturated account holds exactly the business cap, the
   * ordinary account two aliases, every other account none; so the caps hold.
   */
  lemma SeedAliasCounts(now: Timestamp)
    ensures AliasCount(SeedAliases(now), SaturatedCompte) == BusinessCap
    ensures AliasCount(SeedAliases(now), Compte822) == 2
    ensures forall n :: n != SaturatedCompte && n != Compte822 ==> AliasCount(SeedAliases(now), n) == 0
    ensures AliasCapsHold(SeedAliases(now))
  {
    AliasesOfConcat(Seed822(now), SeedSaturated(now), SaturatedCompte);
    AliasesOfConcat(Seed822(now), SeedSaturated(now), Compte822);
    AliasesOfOwned(Seed822(now), Compte822);
    AliasesOfOwned(SeedSaturated(now), SaturatedCompte);
    forall n | n != SaturatedCompte && n != Compte822
      ensures AliasCount(SeedAliases(now), n) == 0
    {
      AliasesOfConcat(Seed822(now), SeedSaturated(now), n);
    }
  }

  /** `comptes.find(c => c.numero === numero)`, None standing for "not found". */
  function FindCompte(comptes: seq<Compte>, numero: string): (r: Option<Compte>)
    ensures r.Some? ==> r.value in comptes && r.value.numero == numero
    ensures r.None? <==> forall i :: 0 <= i < |comptes| ==> comptes[i].numero != numero
  {
    if comptes == [] then None
    else if comptes[0].numero == numero then Some(comptes[0])
    else FindCompte(comptes[1..], numero)
  }

  /** Each seeded account is found with its seeded balance, in XOF. */
  lemma SeedLookups(now: Timestamp)
    ensures FindCompte(SeedComptes(now), Compte822) == Some(Compte(Compte822, 1500000, "XOF", now))
    ensures FindCompte(SeedComptes(now), Compte823) == Some(Compte(Compte823, 750000, "XOF", now))
    ensures FindCompte(SeedComptes(now), SaturatedCompte) == Some(Compte(SaturatedCompte, 100000, "XOF", now))
    ensures FindCompte(SeedComptes(now), Compte888) == Some(Compte(Compte888, 50000, "XOF", now))
    ensures FindCompte(SeedComptes(now), Compte777) == Some(Compte(Compte777, 200000, "XOF", now))
  {
    DistinctNumeros();
    var cs := SeedComptes(now);
    FindAmongFive(cs[0], cs[1], cs[2], cs[3], cs[4]);
  }

  /** `find` on a list of five accounts with distinct numbers. */
  lemma FindAmongFive(a: Compte, b: Compte, c: Compte, d: Compte, e: Compte)
    requires a.numero != b.numero && a.numero != c.numero && a.numero != d.numero && a.numero != e.numero
    requires b.numero != c.numero && b.numero != d.numero && b.numero != e.numero
    requires c.numero != d.numero && c.numero != e.numero && d.numero != e.numero
    ensures FindCompte([a, b, c, d, e], a.numero) == Some(a)
    ensures FindCompte([a, b, c, d, e], b.numero) == Some(b)
    ensures FindCompte([a, b, c, d, e], c.numero) == Some(c)
    ensures FindCompte([a, b, c, d, e], d.numero) == Some(d)
    ensures FindCompte([a, b, c, d, e], e.numero) == Some(e)
  {
    FindCompteCons(a, [b, c, d, e], a.numero);
    FindCompteCons(a, [b, c, d, e], b.numero);
    FindCompteCons(b, [c, d, e], b.numero);
    FindCompteCons(a, [b, c, d, e], c.numero);
    FindCompteCons(b, [c, d, e], c.numero);
    FindCompteCons(c, [d, e], c.numero);
    FindCompteCons(a, [b, c, d, e], d.numero);
    FindCompteCons(b, [c, d, e], d.numero);
    FindCompteCons(c, [d, e], d.numero);
    FindCompteCons(d, [e], d.numero);
    FindCompteCons(a, [b, c, d, e], e.numero);
    FindCompteCons(b, [c, d, e], e.numero);
    FindCompteCons(c, [d, e], e.numero);
    FindCompteCons(d, [e], e.numero);
    FindCompteCons(e, [], e.numero);
  }

  /** One step of `find`: the head if it matches, else a search of the rest. */
  lemma FindCompteCons(c: Compte, rest: seq<Compte>, n: string)
    ensures FindCompte([c] + rest, n) == if c.numero == n then Some(c) else FindCompte(rest, n)
  {
    assert ([c] + rest)[1..] == rest;
  }

  /** The seeded account numbers are pairwise distinct. */
  lemma DistinctNumeros()
    ensures Compte822 != Compte823 && Compte822 != SaturatedCompte && Compte822 != Compte888
    ensures Compte823 != SaturatedCompte && Compte823 != Compte888 && SaturatedCompte != Compte888
    ensures Compte777 != Compte822 && Compte777 != Compte823 && Compte777 != SaturatedCompte && Compte777 != Compte888
  {
    assert Compte822[21] == '2' && Compte823[21] == '3';
    assert Compte822[3] == '2' && Compte823[3] == '2' && SaturatedCompte[3] == '9' && Compte888[3] == '8';
    assert Compte777[3] == '7';
  }

  /**
   * The first listing of the seeded log, newest first, one per page: page 1 shows the
   * later transfer, reports both in `total` and points to page 2 only.
   */
  lemma SeedFirstPage(now: Timestamp)
    ensures var p := Query(SeedTransactions(now), Filters(1, 1, Some("-dateCreation"), None));
      |p.data| == 1 && p.data[0].txId == "TXN002" &&
      p.meta.total == 2 && p.meta.next == Some(2) && p.meta.prev.None?
  {
    var ts := SeedTransactions(now);
    var spec := ParseSort("-dateCreation");
    assert spec == SortSpec(ByDateCreation, true);
    assert SortKey(spec, ts[0]) > SortKey(spec, ts[1]);
    assert SortTransactions(spec, ts) == [ts[1], ts[0]] by {
      assert ts[1..] == [ts[1]];
      assert SortTransactions(spec, [ts[1]]) == Insert(spec, ts[1], SortTransactions(spec, [])) == [ts[1]];
      assert Insert(spec, ts[0], [ts[1]]) == [ts[1]] + Insert(spec, ts[0], []);
    }
  }

  /**
   * Adding an alias to an account that already holds three keeps its first two in store
   * order and drops the rest, whatever their dates: from the seed, two additions to the
   * ordinary account leave its two seeded aliases followed by the second addition. The
   * first addition, the most recent alias the account had, is the one evicted.
   */
  lemma EvictionIgnoresDates(now: Timestamp, a: Alias, b: Alias)
    requires a.compte == Compte822 && b.compte == Compte822
    ensures AliasesOf(InsertAlias(InsertAlias(SeedAliases(now), a), b), Compte822) == Seed822(now) + [b]
  {
    SeedAliasCounts(now);
    var s := SeedAliases(now);
    AliasesOfConcat(Seed822(now), SeedSaturated(now), Compte822);
    AliasesOfOwned(Seed822(now), Compte822);
    AliasesOfOwned(SeedSaturated(now), SaturatedCompte);
    assert AliasesOf(SeedSaturated(now), Compte822) == [] by {
      AliasesOfOwned(SeedSaturated(now), SaturatedCompte);
    }
    InsertAliasOwnList(s, a);
    var s1 := InsertAlias(s, a);
    assert AliasesOf(s1, Compte822) == Seed822(now) + [a];
    InsertAliasOwnList(s1, b);
    assert (Seed822(now) + [a])[..2] == Seed822(now);
  }

  class CompteRepositoryImpl {
    var comptes: seq<Compte>
    var alias: seq<Alias>
    var transactions: seq<Transaction>

    /** The alias caps hold for the table. */
    ghost predicate Valid()
      reads this
    {
      AliasCapsHold(alias)
    }

    /** The seeded store, as built at time `now`. */
    constructor(now: Timestamp)
      ensures Valid()
      ensures comptes == SeedComptes(now) && alias == SeedAliases(now) && transactions == SeedTransactions(now)
    {
      comptes := SeedComptes(now);
      alias := SeedAliases(now);
      transactions := SeedTransactions(now);
      SeedAliasCounts(now);
    }

    /** `findCompteByNumero`: the account's JSON form (the account itself), or null. */
    method FindCompteByNumero(numero: string) returns (r: Option<Compte>)
      ensures r.Some? ==> r.value in comptes && r.value.numero == numero
      ensures r.None? <==> forall i :: 0 <= i < |comptes| ==> comptes[i].numero != numero
      ensures r == FindCompte(comptes, numero)
    {
      r := FindCompte(comptes, numero);
    }

    /** `findByNumero`: the account, or null. */
    method FindByNumero(numero: string) returns (r: Option<Compte>)
      ensures r.Some? ==> r.value in comptes && r.value.numero == numero
      ensures r.None? <==> forall i :: 0 <= i < |comptes| ==> comptes[i].numero != numero
      ensures r == FindCompte(comptes, numero)
    {
      r := FindCompte(comptes, numero);
    }

    /**
     * `findTransactions`: filters, sorts and pages a copy, so the stored log is left
     * exactly as it was; the page is `Query` of the log.
     */
    method FindTransactions(filters: Filters) returns (p: Page)
      ensures p == Query(transactions, filters)
      ensures filters.page >= 1 && filters.size >= 1 ==> |p.data| <= filters.size
      ensures p.meta.total <= |transactions|
    {
      var selected := transactions;
      if Present(filters.statut) {
        selected := WithStatut(selected, filters.statut.value);
      }
      if Present(filters.sort) {
        selected := SortTransactions(ParseSort(filters.sort.value), selected);
      }
      assert selected == Selected(transactions, filters);
      var start := Offset(filters.page, filters.size);
      var end := start + filters.size;
      p := Page(
        Slice(selected, start, end),
        Meta(|selected|, filters.page, filters.size,
             if end < |selected| then Some(filters.page + 1) else None,
             if filters.page > 1 then Some(filters.page - 1) else None));
      assert p == Query(transactions, filters);
      if filters.page >= 1 && filters.size >= 1 {
        QueryWindow(transactions, filters);
      }
    }

    /** `saveTransaction`: append exactly one new record, in status INITIE, and return it. */
    method SaveTransaction(debit: string, credit: string, montant: int, motif: Option<string>, now: nat)
      returns (t: Transaction)
      requires Valid()
      modifies this
      ensures Valid()
      ensures t == NewTransaction(debit, credit, montant, motif, now) && t.statut == StatutInitie
      ensures transactions == old(transactions) + [t]
      ensures comptes == old(comptes) && alias == old(alias)
    {
      t := NewTransaction(debit, credit, montant, motif, now);
      transactions := transactions + [t];
    }

    /** `findAliasByCompte`: the account's aliases, in store order. */
    method FindAliasByCompte(numero: string) returns (r: seq<Alias>)
      ensures r == AliasesOf(alias, numero)
      ensures forall i :: 0 <= i < |r| ==> r[i].compte == numero
    {
      r := AliasesOf(alias, numero);
    }

    /** `getAliasCount`: the length of what `findAliasByCompte` returns. */
    method GetAliasCount(numero: string) returns (n: nat)
      requires Valid()
      ensures n == |AliasesOf(alias, numero)|
      ensures n <= if numero == SaturatedCompte then BusinessCap else StoreCap
    {
      n := |AliasesOf(alias, numero)|;
      assert AliasCount(alias, numero) <= if numero == SaturatedCompte then BusinessCap else StoreCap;
    }

    /**
     * `saveAlias`: when the account already holds three or more aliases, keep only its
     * first two (and every other account's, in order), then append the new alias.
     * The key `cle` stands for the generated uuid.
     */
    method SaveAlias(numero: string, aliasType: string, cle: string, now: Timestamp) returns (a: Alias)
      requires Valid()
      modifies this
      ensures Valid()
      ensures a == NewAlias(numero, aliasType, cle, now)
      ensures alias == InsertAlias(old(alias), a)
      ensures AliasCount(alias, numero) ==
        if AliasCount(old(alias), numero) < StoreCap then AliasCount(old(alias), numero) + 1 else StoreCap
      ensures comptes == old(comptes) && transactions == old(transactions)
    {
      var existing := |AliasesOf(alias, numero)|;
      if existing >= StoreCap {
        alias := OtherAliases(alias, numero) + AliasesOf(alias, numero)[..2];
      }
      a := NewAlias(numero, aliasType, cle, now);
      alias := alias + [a];
      InsertKeepsCaps(old(alias), a);
      InsertAliasOwnList(old(alias), a);
    }

    /** `deleteAlias`: splice out the first alias matching account and key, reporting whether one was found. */
    method DeleteAlias(numero: string, cle: string) returns (deleted: bool)
      requires Valid()
      modifies this
      ensures Valid()
      ensures deleted == RemoveAlias(old(alias), numero, cle).deleted
      ensures alias == RemoveAlias(old(alias), numero, cle).remaining
      ensures deleted <==> exists j :: 0 <= j < |old(alias)| && Matches(old(alias)[j], numero, cle)
      ensures !deleted ==> alias == old(alias)
      ensures comptes == old(comptes) && transactions == old(transactions)
    {
      var index := FindAliasIndex(alias, numero, cle);
      RemoveKeepsCaps(alias, numero, cle);
      RemoveAliasEffect(alias, numero, cle, numero);
      if index.None? {
        return false;
      }
      alias := alias[..index.value] + alias[index.value + 1..];
      return true;
    }
  }
}
