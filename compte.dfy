/** The account entity: a balance snapshot and the account-number format. */
module CompteEntity {
  import opened Wrappers
  import opened Js

  /** Milliseconds since the epoch: the model of an ISO-8601 time stamp. */
  type Timestamp = int

  /**
   * An account as `toJSON` renders it: number, balance in minor units, currency
   * and the time the object was built. A value, so `toJSON` is the identity on it.
   */
  datatype Compte = Compte(numero: string, solde: int, devise: string, dateConsultation: Timestamp)

  const DefaultDevise: string := "XOF"

  /** `/^CIC[0-9]+$/.test(numero)`: the prefix CIC and then one or more decimal digits, nothing else. */
  predicate IsValidNumero(numero: string) {
    |numero| >= 4 && numero[..3] == "CIC" && forall i :: 3 <= i < |numero| ==> IsDigit(numero[i])
  }

  /** A valid number is exactly CIC followed by a non-empty digit string, in both directions. */
  lemma ValidNumeroShape(numero: string)
    ensures IsValidNumero(numero) <==>
      exists digits: string :: numero == "CIC" + digits && |digits| >= 1 && AllDigits(digits)
  {
    if IsValidNumero(numero) {
      var digits := numero[3..];
      assert numero == "CIC" + digits;
      assert AllDigits(digits) by {
        forall i | 0 <= i < |digits| ensures IsDigit(digits[i]) {
          assert digits[i] == numero[i + 3];
        }
      }
    }
    if exists digits: string :: numero == "CIC" + digits && |digits| >= 1 && AllDigits(digits) {
      var digits: string :| numero == "CIC" + digits && |digits| >= 1 && AllDigits(digits);
      forall i | 3 <= i < |numero| ensures IsDigit(numero[i]) {
        assert numero[i] == digits[i - 3];
      }
      assert numero[..3] == "CIC";
    }
  }

  predicate AllDigits(s: string) {
    forall i :: 0 <= i < |s| ==> IsDigit(s[i])
  }

  /** The bare prefix, a lower-case prefix and a trailing non-digit are all refused. */
  lemma RejectedNumeros(digits: string, c: char)
    requires |digits| >= 1 && AllDigits(digits) && !IsDigit(c)
    ensures !IsValidNumero("CIC")
    ensures !IsValidNumero("cic" + digits)
    ensures !IsValidNumero("CIC" + digits + [c])
    ensures !IsValidNumero([c] + "CIC" + digits)
  {
    assert ("cic" + digits)[..3] == "cic";
    assert ("CIC" + digits + [c])[|digits| + 3] == c;
    assert ([c] + "CIC" + digits)[2] == 'I';
  }

  /** `new Compte(numero, solde, devise = 'XOF')`: the currency defaults only when omitted. */
  function NewCompte(numero: string, solde: int, devise: Option<string>, now: Timestamp): (c: Compte)
    ensures c.numero == numero && c.solde == solde && c.dateConsultation == now
    ensures devise.None? ==> c.devise == DefaultDevise
    ensures devise.Some? ==> c.devise == devise.value
  {
    Compte(numero, solde, if devise.Some? then devise.value else DefaultDevise, now)
  }
}
