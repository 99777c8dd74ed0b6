/** The transfer entity and its collect-all payload validator. */
module TransactionEntity {
  import opened Wrappers
  import opened Js
  import opened CompteEntity

  const StatutInitie: string := "INITIE"
  const StatutIrrevocable: string := "IRREVOCABLE"
  const DefaultMotif: string := "Transfert intra-comptes"
  const MaxMotifLength: nat := 140

  /** A stored transfer record, with exactly the seven fields `toJSON` renders. */
  datatype Transaction = Transaction(
    txId: string,
    statut: string,
    dateCreation: Timestamp,
    compteDebiteur: string,
    compteCrediteur: string,
    montant: int,
    motif: string)

  /**
   * A transfer payload as it arrives: every field may be missing. Account numbers
   * are strings, the amount an integer number of minor units.
   */
  datatype TransferData = TransferData(
    compteDebiteur: Option<string>,
    compteCrediteur: Option<string>,
    montant: Option<int>,
    motif: Option<string>)

  /** The four defects a payload can have, in the order they are checked. */
  datatype FieldError = DebitInvalide | CreditInvalide | MontantNonPositif | MotifTropLong

  const MsgDebitInvalide: string := "compteDebiteur invalide"
  const MsgCreditInvalide: string := "compteCrediteur invalide"
  const MsgMontantNonPositif: string := "montant doit être positif"
  const MsgMotifTropLong: string := "motif trop long (max 140 caractères)"

  /** The message each defect is reported with. */
  function FieldMessage(e: FieldError): string {
    match e
    case DebitInvalide => MsgDebitInvalide
    case CreditInvalide => MsgCreditInvalide
    case MontantNonPositif => MsgMontantNonPositif
    case MotifTropLong => MsgMotifTropLong
  }

  /** Position of a defect in the checking order. */
  function Rank(e: FieldError): nat {
    match e
    case DebitInvalide => 0
    case CreditInvalide => 1
    case MontantNonPositif => 2
    case MotifTropLong => 3
  }

  /** `data.x && /^CIC[0-9]+$/.test(data.x)`: present and well formed. */
  predicate AccountFieldOk(o: Option<string>) {
    o.Some? && IsValidNumero(o.value)
  }

  /** `data.montant && data.montant > 0` */
  predicate MontantOk(m: Option<int>) {
    m.Some? && m.value > 0
  }

  /** `!(data.motif && data.motif.length > 140)`: absent, empty or at most 140 characters. */
  predicate MotifOk(m: Option<string>) {
    !(Present(m) && |m.value| > MaxMotifLength)
  }

  /** Whether the payload has the given defect. */
  predicate HasDefect(d: TransferData, e: FieldError) {
    match e
    case DebitInvalide => !AccountFieldOk(d.compteDebiteur)
    case CreditInvalide => !AccountFieldOk(d.compteCrediteur)
    case MontantNonPositif => !MontantOk(d.montant)
    case MotifTropLong => !MotifOk(d.motif)
  }

  datatype ValidationResult = ValidationResult(isValid: bool, errors: seq<FieldError>)

  /**
   * `Transaction.validate`: every defect is reported, none twice, in checking order,
   * and the payload is valid exactly when there is none.
   */
  function Validate(d: TransferData): (r: ValidationResult)
    ensures r.isValid <==> r.errors == []
    ensures forall e :: e in r.errors <==> HasDefect(d, e)
    ensures forall i, j :: 0 <= i < j < |r.errors| ==> Rank(r.errors[i]) < Rank(r.errors[j])
  {
    var errors :=
      (if !AccountFieldOk(d.compteDebiteur) then [DebitInvalide] else [])
      + (if !AccountFieldOk(d.compteCrediteur) then [CreditInvalide] else [])
      + (if !MontantOk(d.montant) then [MontantNonPositif] else [])
      + (if !MotifOk(d.motif) then [MotifTropLong] else []);
    ValidationResult(|errors| == 0, errors)
  }

  /** A missing, zero or negative amount is reported exactly once. */
  lemma MontantReportedOnce(d: TransferData)
    requires d.montant.None? || d.montant.value <= 0
    ensures multiset(Validate(d).errors)[MontantNonPositif] == 1
  {
    var errs := Validate(d).errors;
    assert MontantNonPositif in errs;
    var k :| 0 <= k < |errs| && errs[k] == MontantNonPositif;
    assert errs == errs[..k] + [errs[k]] + errs[k + 1..];
    assert MontantNonPositif !in errs[..k] && MontantNonPositif !in errs[k + 1..] by {
      forall i | 0 <= i < |errs| && i != k ensures errs[i] != MontantNonPositif {
      }
    }
  }

  /** The motif limit is inclusive: 140 characters pass, 141 fail, no motif passes. */
  lemma MotifBoundary(d: TransferData)
    ensures d.motif.None? ==> MotifTropLong !in Validate(d).errors
    ensures d.motif.Some? && |d.motif.value| == 140 ==> MotifTropLong !in Validate(d).errors
    ensures d.motif.Some? && |d.motif.value| == 141 ==> MotifTropLong in Validate(d).errors
  {
  }

  /** A payload with all four defects is reported with all four, in order. */
  lemma AllFourReported(d: TransferData)
    requires !AccountFieldOk(d.compteDebiteur) && !AccountFieldOk(d.compteCrediteur)
    requires !MontantOk(d.montant) && !MotifOk(d.motif)
    ensures Validate(d).errors == [DebitInvalide, CreditInvalide, MontantNonPositif, MotifTropLong]
  {
  }

  /** The transfer identifier `'TXN' + Date.now()`. */
  function TxId(now: nat): (id: string)
    ensures StartsWith(id, "TXN") && ParseInt(id[3..]) == Some(now)
  {
    var id := "TXN" + DecimalString(now);
    assert id[3..] == DecimalString(now);
    ParseIntDecimalString(now);
    id
  }

  /**
   * `new Transaction(debit, credit, montant, motif = 'Transfert intra-comptes')`,
   * reading the clock once (`now`, in milliseconds).
   */
  function NewTransaction(debit: string, credit: string, montant: int, motif: Option<string>, now: nat)
    : (t: Transaction)
    ensures t.statut == StatutInitie && t.txId == TxId(now) && t.dateCreation == now
    ensures t.compteDebiteur == debit && t.compteCrediteur == credit && t.montant == montant
    ensures t.motif == if motif.Some? then motif.value else DefaultMotif
  {
    Transaction(TxId(now), StatutInitie, now, debit, credit, montant,
                if motif.Some? then motif.value else DefaultMotif)
  }

  /** Two transfers created within the same millisecond share their identifier. */
  lemma TxIdDeterminedByClock(now1: nat, now2: nat)
    ensures TxId(now1) == TxId(now2) <==> now1 == now2
  {
    if TxId(now1) == TxId(now2) {
      assert ParseInt(TxId(now1)[3..]) == Some(now1);
      assert ParseInt(TxId(now2)[3..]) == Some(now2);
    }
  }
}
