/**
 `Decode` reads a feature vector column by column back into the form that
 produced it. It is a left inverse of `Encode` (`DecodeEncode`) whose domain
 is exactly the image of `Encode` (`DecodableIffEncoded`). Together these say
 the layout loses nothing and that no two forms share a vector.
 */
module FeatureDecoder {
  import opened Wrappers
  import opened Customer
  import opened Vectors
  import opened FeatureEncoder

  function GenderOf(x: real): Option<Gender> {
    if x == 0.0 then Some(Male) else if x == 1.0 then Some(Female) else None
  }

  function YesNoOf(x: real): Option<YesNo> {
    if x == 1.0 then Some(Yes) else if x == 0.0 then Some(No) else None
  }

  /** The integer a column holds, when it holds one. */
  function WholeOf(x: real): Option<int> {
    if x.Floor as real == x then Some(x.Floor) else None
  }

  /** The answer a three-column one-hot group selects, reading its columns in the box's order. */
  function InternetOf(g: seq<real>): Option<InternetService> {
    if |g| != 3 then None
    else if g[0] == 1.0 && g[1] == 0.0 && g[2] == 0.0 then Some(DSL)
    else if g[0] == 0.0 && g[1] == 1.0 && g[2] == 0.0 then Some(FiberOptic)
    else if g[0] == 0.0 && g[1] == 0.0 && g[2] == 1.0 then Some(NoInternetService)
    else None
  }

  function ContractOf(g: seq<real>): Option<Contract> {
    if |g| != 3 then None
    else if g[0] == 1.0 && g[1] == 0.0 && g[2] == 0.0 then Some(MonthToMonth)
    else if g[0] == 0.0 && g[1] == 1.0 && g[2] == 0.0 then Some(OneYear)
    else if g[0] == 0.0 && g[1] == 0.0 && g[2] == 1.0 then Some(TwoYear)
    else None
  }

  function PaymentOf(g: seq<real>): Option<PaymentMethod> {
    if |g| != 4 then None
    else if g[0] == 1.0 && g[1] == 0.0 && g[2] == 0.0 && g[3] == 0.0 then Some(BankTransfer)
    else if g[0] == 0.0 && g[1] == 1.0 && g[2] == 0.0 && g[3] == 0.0 then Some(CreditCard)
    else if g[0] == 0.0 && g[1] == 0.0 && g[2] == 1.0 && g[3] == 0.0 then Some(ElectronicCheck)
    else if g[0] == 0.0 && g[1] == 0.0 && g[2] == 0.0 && g[3] == 1.0 then Some(MailedCheck)
    else None
  }

  /** Every column of `v` holds a value some form could have put there. */
  predicate Decodable(v: seq<real>) {
    && |v| == FeatureCount
    && GenderOf(v[GenderAt]).Some?
    && WholeOf(v[SeniorCitizenAt]).Some?
    && WholeOf(v[TenureAt]).Some?
    && YesNoOf(v[PartnerAt]).Some?
    && YesNoOf(v[DependentsAt]).Some?
    && YesNoOf(v[PhoneServiceAt]).Some?
    && YesNoOf(v[MultipleLinesAt]).Some?
    && YesNoOf(v[OnlineSecurityAt]).Some?
    && YesNoOf(v[OnlineBackupAt]).Some?
    && YesNoOf(v[DeviceProtectionAt]).Some?
    && YesNoOf(v[TechSupportAt]).Some?
    && YesNoOf(v[StreamingTVAt]).Some?
    && YesNoOf(v[StreamingMoviesAt]).Some?
    && YesNoOf(v[PaperlessBillingAt]).Some?
    && InternetOf(v[InternetAt..ContractAt]).Some?
    && ContractOf(v[ContractAt..PaymentAt]).Some?
    && PaymentOf(v[PaymentAt..]).Some?
  }

  /** The form whose answers a decodable vector holds. */
  function Answers(v: seq<real>): Profile
    requires Decodable(v)
  {
    Profile(
      GenderOf(v[GenderAt]).value,
      WholeOf(v[SeniorCitizenAt]).value,
      YesNoOf(v[PartnerAt]).value,
      YesNoOf(v[DependentsAt]).value,
      WholeOf(v[TenureAt]).value,
      YesNoOf(v[PhoneServiceAt]).value,
      YesNoOf(v[MultipleLinesAt]).value,
      YesNoOf(v[OnlineSecurityAt]).value,
      YesNoOf(v[OnlineBackupAt]).value,
      YesNoOf(v[DeviceProtectionAt]).value,
      YesNoOf(v[TechSupportAt]).value,
      YesNoOf(v[StreamingTVAt]).value,
      YesNoOf(v[StreamingMoviesAt]).value,
      YesNoOf(v[PaperlessBillingAt]).value,
      v[MonthlyChargesAt],
      v[TotalChargesAt],
      InternetOf(v[InternetAt..ContractAt]).value,
      ContractOf(v[ContractAt..PaymentAt]).value,
      PaymentOf(v[PaymentAt..]).value)
  }

  /** The form a feature vector was encoded from, or None when no form encodes to it. */
  function Decode(v: seq<real>): Option<Profile> {
    if Decodable(v) then Some(Answers(v)) else None
  }

  /** Every form is recovered from its feature vector. */
  lemma DecodeEncode(p: Profile)
    ensures Decode(Encode(p)) == Some(p)
  {
    var v := Encode(p);
    EncodeGender(p);
    EncodePassThrough(p);
    assert GenderOf(v[GenderAt]) == Some(p.gender);
    assert WholeOf(v[SeniorCitizenAt]) == Some(p.seniorCitizen);
    assert WholeOf(v[TenureAt]) == Some(p.tenure);
    YesNoColumnsReadBack(p);
    InternetColumns(p);
    ContractColumns(p);
    PaymentColumns(p);
  }

  /** Each Yes/No column of a form's vector is read back as the form's answer. */
  lemma YesNoColumnsReadBack(p: Profile)
    ensures YesNoOf(Encode(p)[PartnerAt]) == Some(p.partner)
    ensures YesNoOf(Encode(p)[DependentsAt]) == Some(p.dependents)
    ensures YesNoOf(Encode(p)[PhoneServiceAt]) == Some(p.phoneService)
    ensures YesNoOf(Encode(p)[MultipleLinesAt]) == Some(p.multipleLines)
    ensures YesNoOf(Encode(p)[OnlineSecurityAt]) == Some(p.onlineSecurity)
    ensures YesNoOf(Encode(p)[OnlineBackupAt]) == Some(p.onlineBackup)
    ensures YesNoOf(Encode(p)[DeviceProtectionAt]) == Some(p.deviceProtection)
    ensures YesNoOf(Encode(p)[TechSupportAt]) == Some(p.techSupport)
    ensures YesNoOf(Encode(p)[StreamingTVAt]) == Some(p.streamingTV)
    ensures YesNoOf(Encode(p)[StreamingMoviesAt]) == Some(p.streamingMovies)
    ensures YesNoOf(Encode(p)[PaperlessBillingAt]) == Some(p.paperlessBilling)
  {
    EncodeYesNoAnswers(p);
    YesNoRoundTrip(p.partner);
    YesNoRoundTrip(p.dependents);
    YesNoRoundTrip(p.phoneService);
    YesNoRoundTrip(p.multipleLines);
    YesNoRoundTrip(p.onlineSecurity);
    YesNoRoundTrip(p.onlineBackup);
    YesNoRoundTrip(p.deviceProtection);
    YesNoRoundTrip(p.techSupport);
    YesNoRoundTrip(p.streamingTV);
    YesNoRoundTrip(p.streamingMovies);
    YesNoRoundTrip(p.paperlessBilling);
  }

  /** A Yes/No column is read back as the answer it encodes. */
  lemma YesNoRoundTrip(y: YesNo)
    ensures YesNoOf(Flag(y == Yes)) == Some(y)
  {
  }

  /** Whatever decodes, decodes to a form whose vector is exactly the one decoded. */
  lemma EncodeDecode(v: seq<real>)
    requires Decode(v).Some?
    ensures Encode(Decode(v).value) == v
  {
    var p := Decode(v).value;
    var e := Encode(p);
    HeadColumnsDecode(v);
    InternetColumns(p);
    ContractColumns(p);
    PaymentColumns(p);
    assert e == e[..InternetAt] + e[InternetAt..ContractAt] + e[ContractAt..PaymentAt] + e[PaymentAt..];
    assert v == v[..InternetAt] + v[InternetAt..ContractAt] + v[ContractAt..PaymentAt] + v[PaymentAt..];
  }

  /** Two forms with the same feature vector are the same form: the layout loses nothing. */
  lemma EncodeInjective(p: Profile, q: Profile)
    requires Encode(p) == Encode(q)
    ensures p == q
  {
    DecodeEncode(p);
    DecodeEncode(q);
  }

  /** A vector decodes exactly when some form encodes to it. */
  lemma DecodableIffEncoded(v: seq<real>)
    ensures Decode(v).Some? <==> exists p :: Encode(p) == v
  {
    if Decode(v).Some? {
      EncodeDecode(v);
    }
    forall p | Encode(p) == v
      ensures Decode(v).Some?
    {
      DecodeEncode(p);
    }
  }

  /** The first sixteen columns of a decodable vector are those of the form it decodes to. */
  lemma HeadColumnsDecode(v: seq<real>)
    requires Decode(v).Some?
    ensures |v| == FeatureCount && Encode(Decode(v).value)[..InternetAt] == v[..InternetAt]
  {
    var p := Decode(v).value;
    var e := Encode(p);
    EncodeGender(p);
    EncodeYesNoAnswers(p);
    EncodePassThrough(p);
    assert e[GenderAt] == v[GenderAt];
    assert e[SeniorCitizenAt] == v[SeniorCitizenAt];
    assert e[TenureAt] == v[TenureAt];
    YesNoColumnDecodes(v[PartnerAt]);
    YesNoColumnDecodes(v[DependentsAt]);
    YesNoColumnDecodes(v[PhoneServiceAt]);
    YesNoColumnDecodes(v[MultipleLinesAt]);
    YesNoColumnDecodes(v[OnlineSecurityAt]);
    YesNoColumnDecodes(v[OnlineBackupAt]);
    YesNoColumnDecodes(v[DeviceProtectionAt]);
    YesNoColumnDecodes(v[TechSupportAt]);
    YesNoColumnDecodes(v[StreamingTVAt]);
    YesNoColumnDecodes(v[StreamingMoviesAt]);
    YesNoColumnDecodes(v[PaperlessBillingAt]);
    forall i | 0 <= i < InternetAt
      ensures e[i] == v[i]
    {
      ColumnIndices(i);
    }
  }

  /** A column read as a Yes/No answer holds exactly that answer's encoding. */
  lemma YesNoColumnDecodes(x: real)
    requires YesNoOf(x).Some?
    ensures Flag(YesNoOf(x).value == Yes) == x
  {
  }

  /** The internet-service group of a form's vector is the one pattern `InternetOf` reads back as its answer. */
  lemma InternetColumns(p: Profile)
    ensures InternetOf(Encode(p)[InternetAt..ContractAt]) == Some(p.internetService)
    ensures forall g :: InternetOf(g) == Some(p.internetService) ==> g == Encode(p)[InternetAt..ContractAt]
  {
    var g := Encode(p)[InternetAt..ContractAt];
    match p.internetService
    case DSL => assert g == [1.0, 0.0, 0.0];
    case FiberOptic => assert g == [0.0, 1.0, 0.0];
    case NoInternetService => assert g == [0.0, 0.0, 1.0];
  }

  /** The contract group of a form's vector is the one pattern `ContractOf` reads back as its answer. */
  lemma ContractColumns(p: Profile)
    ensures ContractOf(Encode(p)[ContractAt..PaymentAt]) == Some(p.contract)
    ensures forall g :: ContractOf(g) == Some(p.contract) ==> g == Encode(p)[ContractAt..PaymentAt]
  {
    var g := Encode(p)[ContractAt..PaymentAt];
    match p.contract
    case MonthToMonth => assert g == [1.0, 0.0, 0.0];
    case OneYear => assert g == [0.0, 1.0, 0.0];
    case TwoYear => assert g == [0.0, 0.0, 1.0];
  }

  /** The payment-method group of a form's vector is the one pattern `PaymentOf` reads back as its answer. */
  lemma PaymentColumns(p: Profile)
    ensures PaymentOf(Encode(p)[PaymentAt..]) == Some(p.paymentMethod)
    ensures forall g :: PaymentOf(g) == Some(p.paymentMethod) ==> g == Encode(p)[PaymentAt..]
  {
    var g := Encode(p)[PaymentAt..];
    match p.paymentMethod
    case BankTransfer => assert g == [1.0, 0.0, 0.0, 0.0];
    case CreditCard => assert g == [0.0, 1.0, 0.0, 0.0];
    case ElectronicCheck => assert g == [0.0, 0.0, 1.0, 0.0];
    case MailedCheck => assert g == [0.0, 0.0, 0.0, 1.0];
  }

}
