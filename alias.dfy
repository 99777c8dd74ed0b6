/** The alias entity: a payment address attached to an account. */
module AliasEntity {
  import opened Js
  import opened CompteEntity

  /** An alias as `toJSON` renders it: key, type, owning account and creation time. */
  datatype Alias = Alias(cle: string, aliasType: string, compte: string, dateCreation: Timestamp)

  /** `new Alias(compte, type)`, with the uuid and the clock reading supplied by the caller. */
  function NewAlias(compte: string, aliasType: string, cle: string, now: Timestamp): (a: Alias)
    ensures a.compte == compte && a.aliasType == aliasType
    ensures a.cle == cle && a.dateCreation == now
  {
    Alias(cle, aliasType, compte, now)
  }

  /** `['SHID', 'MCOD'].includes(type)` */
  predicate IsValidType(aliasType: string) {
    aliasType in ["SHID", "MCOD"]
  }

  lemma ValidTypes(aliasType: string)
    ensures IsValidType(aliasType) <==> aliasType == "SHID" || aliasType == "MCOD"
  {
  }

  /** The positions of the four dashes in an 8-4-4-4-12 key. */
  predicate IsDashPosition(i: int) {
    i == 8 || i == 13 || i == 18 || i == 23
  }

  /** The RFC 4122 variant digit, in either case: one of 8, 9, a, b. */
  predicate IsVariantDigit(c: char) {
    c == '8' || c == '9' || c == 'a' || c == 'b' || c == 'A' || c == 'B'
  }

  /** What the key pattern admits at position i. */
  predicate CleCharOk(i: int, c: char) {
    if IsDashPosition(i) then c == '-'
    else if i == 14 then c == '4'
    else if i == 19 then IsVariantDigit(c)
    else IsHexDigit(c)
  }

  /**
   * `/^[0-9a-f]{8}-[0-9a-f]{4}-4[0-9a-f]{3}-[89ab][0-9a-f]{3}-[0-9a-f]{12}$/i.test(cle)`,
   * read position by position over the 36 characters of the key.
   */
  predicate IsValidCle(cle: string) {
    |cle| == 36 && forall i :: 0 <= i < 36 ==> CleCharOk(i, cle[i])
  }

  predicate AllHex(s: string) {
    forall i :: 0 <= i < |s| ==> IsHexDigit(s[i])
  }

  /** The key assembled from its five groups. */
  function JoinGroups(g1: string, g2: string, g3: string, g4: string, g5: string): string {
    g1 + "-" + g2 + "-" + g3 + "-" + g4 + "-" + g5
  }

  /**
   * With group lengths 8-4-4-4-12, the key is valid exactly when every group is
   * hexadecimal, the third starts with the version digit 4 and the fourth with a
   * variant digit.
   */
  lemma {:induction false} CleGroups(g1: string, g2: string, g3: string, g4: string, g5: string)
    requires |g1| == 8 && |g2| == 4 && |g3| == 4 && |g4| == 4 && |g5| == 12
    ensures IsValidCle(JoinGroups(g1, g2, g3, g4, g5)) <==>
      AllHex(g1) && AllHex(g2) && AllHex(g3) && g3[0] == '4'
      && AllHex(g4) && IsVariantDigit(g4[0]) && AllHex(g5)
  {
    var s := JoinGroups(g1, g2, g3, g4, g5);
    assert |s| == 36;
    assert forall i :: 0 <= i < 8 ==> s[i] == g1[i];
    assert s[8] == '-' && s[13] == '-' && s[18] == '-' && s[23] == '-';
    assert forall i :: 9 <= i < 13 ==> s[i] == g2[i - 9];
    assert forall i :: 14 <= i < 18 ==> s[i] == g3[i - 14];
    assert forall i :: 19 <= i < 23 ==> s[i] == g4[i - 19];
    assert forall i :: 24 <= i < 36 ==> s[i] == g5[i - 24];
    if IsValidCle(s) {
      assert forall i :: 0 <= i < 8 ==> CleCharOk(i, s[i]);
      assert AllHex(g1) by {
        forall i | 0 <= i < 8 ensures IsHexDigit(g1[i]) { assert CleCharOk(i, s[i]); }
      }
      assert AllHex(g2) by {
        forall i | 0 <= i < 4 ensures IsHexDigit(g2[i]) { assert CleCharOk(i + 9, s[i + 9]); }
      }
      assert AllHex(g3) by {
        forall i | 0 <= i < 4 ensures IsHexDigit(g3[i]) { assert CleCharOk(i + 14, s[i + 14]); }
      }
      assert AllHex(g4) by {
        forall i | 0 <= i < 4 ensures IsHexDigit(g4[i]) { assert CleCharOk(i + 19, s[i + 19]); }
      }
      assert AllHex(g5) by {
        forall i | 0 <= i < 12 ensures IsHexDigit(g5[i]) { assert CleCharOk(i + 24, s[i + 24]); }
      }
      assert CleCharOk(14, s[14]) && CleCharOk(19, s[19]);
    }
  }

  /** Every valid key has the 8-4-4-4-12 layout that `CleGroups` describes. */
  lemma ValidCleSplits(cle: string)
    requires IsValidCle(cle)
    ensures cle == JoinGroups(cle[..8], cle[9..13], cle[14..18], cle[19..23], cle[24..])
  {
    assert CleCharOk(8, cle[8]) && CleCharOk(13, cle[13]) && CleCharOk(18, cle[18]) && CleCharOk(23, cle[23]);
    var j := JoinGroups(cle[..8], cle[9..13], cle[14..18], cle[19..23], cle[24..]);
    assert |j| == |cle|;
    forall i | 0 <= i < 36 ensures j[i] == cle[i] {
    }
  }

  /** The key pattern carries the `i` flag: a key and its lower-case form are accepted alike. */
  lemma {:induction false} CleCaseInsensitive(cle: string)
    ensures IsValidCle(cle) <==> IsValidCle(Lower(cle))
  {
    var low := Lower(cle);
    if |cle| == 36 {
      forall i | 0 <= i < 36 ensures CleCharOk(i, cle[i]) <==> CleCharOk(i, low[i]) {
        assert low[i] == LowerChar(cle[i]);
      }
    }
  }
}
