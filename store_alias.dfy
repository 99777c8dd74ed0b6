/**
 * The alias table of the in-memory repository, as pure functions over its array:
 * per-account selection, the overflow eviction applied on insertion, removal of
 * the first (account, key) match, and the alias caps these rules maintain.
 */
module AliasStore {
  import opened Wrappers
  import opened AliasEntity

  /** The seeded account that starts with twenty aliases. */
  const SaturatedCompte: string := "CIC9999999999999999999"
  /** The business cap the domain service enforces. */
  const BusinessCap: nat := 20
  /** The working-set cap the store enforces on insertion. */
  const StoreCap: nat := 3

  /** `alias.filter(a => a.compte === numero)`, in store order. */
  function AliasesOf(alias: seq<Alias>, numero: string): (r: seq<Alias>)
    ensures |r| <= |alias|
    ensures forall i :: 0 <= i < |r| ==> r[i].compte == numero
  {
    if alias == [] then []
    else (if alias[0].compte == numero then [alias[0]] else []) + AliasesOf(alias[1..], numero)
  }

  /** `alias.filter(a => a.compte !== numero)`, in store order. */
  function OtherAliases(alias: seq<Alias>, numero: string): (r: seq<Alias>)
    ensures |r| <= |alias|
    ensures forall i :: 0 <= i < |r| ==> r[i].compte != numero
  {
    if alias == [] then []
    else (if alias[0].compte != numero then [alias[0]] else []) + OtherAliases(alias[1..], numero)
  }

  /** `getAliasCount(numero)`: the number of aliases the account holds. */
  function AliasCount(alias: seq<Alias>, numero: string): nat {
    |AliasesOf(alias, numero)|
  }

  /** Selection distributes over concatenation. */
  lemma {:induction false} AliasesOfConcat(a: seq<Alias>, b: seq<Alias>, numero: string)
    ensures AliasesOf(a + b, numero) == AliasesOf(a, numero) + AliasesOf(b, numero)
    ensures OtherAliases(a + b, numero) == OtherAliases(a, numero) + OtherAliases(b, numero)
  {
    OtherAliasesConcat(a, b, numero);
    if a == [] {
      assert a + b == b;
    } else {
      assert (a + b)[0] == a[0];
      assert (a + b)[1..] == a[1..] + b;
      AliasesOfConcat(a[1..], b, numero);
      var h := if a[0].compte == numero then [a[0]] else [];
      assert AliasesOf(a + b, numero) == h + AliasesOf(a[1..] + b, numero);
      assert AliasesOf(a, numero) == h + AliasesOf(a[1..], numero);
    }
  }

  lemma {:induction false} OtherAliasesConcat(a: seq<Alias>, b: seq<Alias>, numero: string)
    ensures OtherAliases(a + b, numero) == OtherAliases(a, numero) + OtherAliases(b, numero)
  {
    if a == [] {
      assert a + b == b;
    } else {
      assert (a + b)[0] == a[0];
      assert (a + b)[1..] == a[1..] + b;
      OtherAliasesConcat(a[1..], b, numero);
      var g := if a[0].compte != numero then [a[0]] else [];
      assert OtherAliases(a + b, numero) == g + OtherAliases(a[1..] + b, numero);
      assert OtherAliases(a, numero) == g + OtherAliases(a[1..], numero);
    }
  }

  /** Selecting an account from a list of that account's aliases keeps all of it. */
  lemma {:induction false} AliasesOfOwned(s: seq<Alias>, numero: string)
    requires forall i :: 0 <= i < |s| ==> s[i].compte == numero
    ensures AliasesOf(s, numero) == s
    ensures OtherAliases(s, numero) == []
    ensures forall m :: m != numero ==> AliasesOf(s, m) == []
  {
    if s != [] {
      AliasesOfOwned(s[1..], numero);
    }
  }

  /** Removing one account's aliases leaves every other account's list as it was. */
  lemma {:induction false} OthersKeepLists(alias: seq<Alias>, numero: string, m: string)
    ensures AliasesOf(OtherAliases(alias, numero), numero) == []
    ensures m != numero ==> AliasesOf(OtherAliases(alias, numero), m) == AliasesOf(alias, m)
  {
    if alias != [] {
      OthersKeepLists(alias[1..], numero, m);
      var head := if alias[0].compte != numero then [alias[0]] else [];
      AliasesOfConcat(head, OtherAliases(alias[1..], numero), numero);
      AliasesOfConcat(head, OtherAliases(alias[1..], numero), m);
    }
  }

  /**
   * The store's overflow rule: when the account already holds three or more aliases,
   * the table becomes every other account's aliases followed by this account's first
   * two (in store order); otherwise it is left alone.
   */
  function EvictOverflow(alias: seq<Alias>, numero: string): seq<Alias> {
    if AliasCount(alias, numero) >= StoreCap then
      OtherAliases(alias, numero) + AliasesOf(alias, numero)[..2]
    else alias
  }

  /** `saveAlias`: apply the overflow rule for the new alias's account, then append it. */
  function InsertAlias(alias: seq<Alias>, a: Alias): seq<Alias> {
    EvictOverflow(alias, a.compte) + [a]
  }

  /**
   * After `saveAlias` the account's list is its previous list, cut to its first two
   * entries when it held three or more, followed by the new alias; so the account
   * then holds one more alias than before, or exactly three.
   */
  lemma InsertAliasOwnList(alias: seq<Alias>, a: Alias)
    ensures AliasesOf(InsertAlias(alias, a), a.compte) ==
      (if AliasCount(alias, a.compte) >= StoreCap then AliasesOf(alias, a.compte)[..2]
       else AliasesOf(alias, a.compte)) + [a]
    ensures AliasCount(InsertAlias(alias, a), a.compte) ==
      if AliasCount(alias, a.compte) < StoreCap then AliasCount(alias, a.compte) + 1 else StoreCap
  {
    var n := a.compte;
    var own := AliasesOf(alias, n);
    AliasesOfConcat(EvictOverflow(alias, n), [a], n);
    if AliasCount(alias, n) >= StoreCap {
      AliasesOfConcat(OtherAliases(alias, n), own[..2], n);
      OthersKeepLists(alias, n, n);
      AliasesOfOwned(own[..2], n);
    }
  }

  /** `saveAlias` leaves every other account's list, and the relative order of the others, unchanged. */
  lemma InsertAliasOtherLists(alias: seq<Alias>, a: Alias, m: string)
    requires m != a.compte
    ensures AliasesOf(InsertAlias(alias, a), m) == AliasesOf(alias, m)
    ensures OtherAliases(InsertAlias(alias, a), a.compte) == OtherAliases(alias, a.compte)
  {
    var n := a.compte;
    var own := AliasesOf(alias, n);
    AliasesOfConcat(EvictOverflow(alias, n), [a], m);
    AliasesOfConcat(EvictOverflow(alias, n), [a], n);
    if AliasCount(alias, n) >= StoreCap {
      AliasesOfConcat(OtherAliases(alias, n), own[..2], m);
      AliasesOfConcat(OtherAliases(alias, n), own[..2], n);
      OthersKeepLists(alias, n, m);
      OthersOfOthers(alias, n);
      AliasesOfOwned(own[..2], n);
    }
  }

  /** Removing an account's aliases twice is removing them once. */
  lemma {:induction false} OthersOfOthers(alias: seq<Alias>, numero: string)
    ensures OtherAliases(OtherAliases(alias, numero), numero) == OtherAliases(alias, numero)
  {
    if alias != [] {
      OthersOfOthers(alias[1..], numero);
      var head := if alias[0].compte != numero then [alias[0]] else [];
      AliasesOfConcat(head, OtherAliases(alias[1..], numero), numero);
    }
  }

  /** The (account, key) pair `deleteAlias` looks for. */
  predicate Matches(a: Alias, numero: string, cle: string) {
    a.compte == numero && a.cle == cle
  }

  /** `alias.findIndex(a => a.compte === numero && a.cle === cle)`, None standing for -1. */
  function FindAliasIndex(alias: seq<Alias>, numero: string, cle: string): (r: Option<nat>)
    ensures r.Some? ==> r.value < |alias| && Matches(alias[r.value], numero, cle)
    ensures r.Some? ==> forall j :: 0 <= j < r.value ==> !Matches(alias[j], numero, cle)
    ensures r.None? <==> forall j :: 0 <= j < |alias| ==> !Matches(alias[j], numero, cle)
  {
    if alias == [] then None
    else if Matches(alias[0], numero, cle) then Some(0)
    else match FindAliasIndex(alias[1..], numero, cle)
      case None => None
      case Some(i) => Some(i + 1)
  }

  datatype Deletion = Deletion(deleted: bool, remaining: seq<Alias>)

  /** `deleteAlias`: splice out the first match and report true, or report false and change nothing. */
  function RemoveAlias(alias: seq<Alias>, numero: string, cle: string): Deletion {
    match FindAliasIndex(alias, numero, cle)
    case None => Deletion(false, alias)
    case Some(i) => Deletion(true, alias[..i] + alias[i + 1..])
  }

  /**
   * A deletion removes exactly one alias of the account and returns true; or finds
   * none, returns false and leaves the table as it was. Other accounts' lists never
   * change. Which alias goes is `RemoveAliasFirstMatch`.
   */
  lemma RemoveAliasEffect(alias: seq<Alias>, numero: string, cle: string, m: string)
    ensures RemoveAlias(alias, numero, cle).deleted <==>
      exists j :: 0 <= j < |alias| && Matches(alias[j], numero, cle)
    ensures !RemoveAlias(alias, numero, cle).deleted ==> RemoveAlias(alias, numero, cle).remaining == alias
    ensures RemoveAlias(alias, numero, cle).deleted ==>
      |RemoveAlias(alias, numero, cle).remaining| == |alias| - 1 &&
      AliasCount(RemoveAlias(alias, numero, cle).remaining, numero) == AliasCount(alias, numero) - 1
    ensures m != numero ==> AliasesOf(RemoveAlias(alias, numero, cle).remaining, m) == AliasesOf(alias, m)
  {
    var r := FindAliasIndex(alias, numero, cle);
    if r.Some? {
      var i := r.value;
      assert alias == alias[..i] + [alias[i]] + alias[i + 1..];
      AliasesOfConcat(alias[..i] + [alias[i]], alias[i + 1..], numero);
      AliasesOfConcat(alias[..i], [alias[i]], numero);
      AliasesOfConcat(alias[..i], alias[i + 1..], numero);
      AliasesOfConcat(alias[..i] + [alias[i]], alias[i + 1..], m);
      AliasesOfConcat(alias[..i], [alias[i]], m);
      AliasesOfConcat(alias[..i], alias[i + 1..], m);
    }
  }

  /** The alias spliced out is the first one carrying both the account and the key. */
  lemma RemoveAliasFirstMatch(alias: seq<Alias>, numero: string, cle: string)
    ensures RemoveAlias(alias, numero, cle).deleted ==>
      exists i :: 0 <= i < |alias| && Matches(alias[i], numero, cle) &&
        (forall j :: 0 <= j < i ==> !Matches(alias[j], numero, cle)) &&
        RemoveAlias(alias, numero, cle).remaining == alias[..i] + alias[i + 1..]
  {
    var r := FindAliasIndex(alias, numero, cle);
    if r.Some? {
      var i := r.value;
      assert RemoveAlias(alias, numero, cle).remaining == alias[..i] + alias[i + 1..];
    }
  }

  /** No two aliases in the table share a key. */
  predicate UniqueCles(alias: seq<Alias>) {
    forall i, j :: 0 <= i < j < |alias| ==> alias[i].cle != alias[j].cle
  }

  /** With distinct keys, deleting the same (account, key) twice answers true, then false. */
  lemma DeleteTwice(alias: seq<Alias>, numero: string, cle: string)
    requires UniqueCles(alias)
    requires RemoveAlias(alias, numero, cle).deleted
    ensures !RemoveAlias(RemoveAlias(alias, numero, cle).remaining, numero, cle).deleted
  {
    var i := FindAliasIndex(alias, numero, cle).value;
    var rest := alias[..i] + alias[i + 1..];
    forall j | 0 <= j < |rest| ensures !Matches(rest[j], numero, cle) {
      if j < i {
        assert rest[j] == alias[j];
      } else {
        assert rest[j] == alias[j + 1];
      }
    }
  }

  /**
   * The alias caps: the seeded saturated account holds at most twenty aliases and
   * every other account at most three.
   */
  ghost predicate AliasCapsHold(alias: seq<Alias>) {
    forall n :: AliasCount(alias, n) <= (if n == SaturatedCompte then BusinessCap else StoreCap)
  }

  /** Insertion keeps the caps: the account it touches ends with at most three aliases. */
  lemma InsertKeepsCaps(alias: seq<Alias>, a: Alias)
    requires AliasCapsHold(alias)
    ensures AliasCapsHold(InsertAlias(alias, a))
  {
    forall n ensures AliasCount(InsertAlias(alias, a), n) <= (if n == SaturatedCompte then BusinessCap else StoreCap) {
      assert AliasCount(alias, n) <= (if n == SaturatedCompte then BusinessCap else StoreCap);
      if n == a.compte {
        InsertAliasOwnList(alias, a);
      } else {
        InsertAliasOtherLists(alias, a, n);
      }
    }
  }

  /** Deletion keeps the caps. */
  lemma RemoveKeepsCaps(alias: seq<Alias>, numero: string, cle: string)
    requires AliasCapsHold(alias)
    ensures AliasCapsHold(RemoveAlias(alias, numero, cle).remaining)
  {
    forall n ensures AliasCount(RemoveAlias(alias, numero, cle).remaining, n) <= (if n == SaturatedCompte then BusinessCap else StoreCap) {
      assert AliasCount(alias, n) <= (if n == SaturatedCompte then BusinessCap else StoreCap);
      RemoveAliasEffect(alias, numero, cle, n);
    }
  }

  /**
   * Under the caps, only the saturated seeded account can reach the business cap of
   * twenty, and once it has received an alias through `saveAlias` it holds three.
   */
  lemma OnlySaturatedReachesBusinessCap(alias: seq<Alias>, n: string, a: Alias)
    requires AliasCapsHold(alias)
    ensures AliasCount(alias, n) >= BusinessCap ==> n == SaturatedCompte
    ensures AliasCount(InsertAlias(alias, a), a.compte) <= StoreCap
  {
    InsertAliasOwnList(alias, a);
  }
}
