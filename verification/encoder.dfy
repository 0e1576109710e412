/**
 The feature encoder: one filled-in form becomes the fixed-order vector of 26
 numbers whose columns the pre-fitted scaler and the trained classifier were
 built on. Positions are load-bearing: nothing binds a column by name.

 The form script builds a list of Python ints and floats that numpy turns
 into float64 values; here every entry is a `real`.
 */
module FeatureEncoder {
  import opened Customer
  import opened Vectors

  /** Length of the feature vector and the position of each column. */
  const FeatureCount := 26
  const GenderAt := 0
  const SeniorCitizenAt := 1
  const TenureAt := 4
  const MonthlyChargesAt := 14
  const TotalChargesAt := 15
  const InternetAt := 16
  const ContractAt := 19
  const PaymentAt := 22

  /** Positions of the eleven Yes/No answers. */
  const PartnerAt := 2
  const DependentsAt := 3
  const PhoneServiceAt := 5
  const MultipleLinesAt := 6
  const OnlineSecurityAt := 7
  const OnlineBackupAt := 8
  const DeviceProtectionAt := 9
  const TechSupportAt := 10
  const StreamingTVAt := 11
  const StreamingMoviesAt := 12
  const PaperlessBillingAt := 13

  /** The feature vector of one form, column by column. */
  function Encode(p: Profile): (v: seq<real>)
    ensures |v| == FeatureCount
  {
    [ GenderBit(p.gender) as real,
      p.seniorCitizen as real,
      YesNoBit(p.partner) as real,
      YesNoBit(p.dependents) as real,
      p.tenure as real,
      YesNoBit(p.phoneService) as real,
      YesNoBit(p.multipleLines) as real,
      YesNoBit(p.onlineSecurity) as real,
      YesNoBit(p.onlineBackup) as real,
      YesNoBit(p.deviceProtection) as real,
      YesNoBit(p.techSupport) as real,
      YesNoBit(p.streamingTV) as real,
      YesNoBit(p.streamingMovies) as real,
      YesNoBit(p.paperlessBilling) as real,
      p.monthlyCharges,
      p.totalCharges,
      // internet service, one-hot
      Flag(p.internetService == DSL),
      Flag(p.internetService == FiberOptic),
      Flag(p.internetService == NoInternetService),
      // contract type, one-hot
      Flag(p.contract == MonthToMonth),
      Flag(p.contract == OneYear),
      Flag(p.contract == TwoYear),
      // payment method, one-hot
      Flag(p.paymentMethod == BankTransfer),
      Flag(p.paymentMethod == CreditCard),
      Flag(p.paymentMethod == ElectronicCheck),
      Flag(p.paymentMethod == MailedCheck)
    ]
  }

  /** Gender is column 0: Male encodes to 0 and Female to 1. */
  lemma EncodeGender(p: Profile)
    ensures Encode(p)[GenderAt] == 0.0 <==> p.gender == Male
    ensures Encode(p)[GenderAt] == 1.0 <==> p.gender == Female
  {
  }

  /** Each Yes/No answer lands in its own column as 1 for "Yes" and 0 for "No". */
  lemma EncodeYesNoAnswers(p: Profile)
    ensures Encode(p)[PartnerAt] == Flag(p.partner == Yes)
    ensures Encode(p)[DependentsAt] == Flag(p.dependents == Yes)
    ensures Encode(p)[PhoneServiceAt] == Flag(p.phoneService == Yes)
    ensures Encode(p)[MultipleLinesAt] == Flag(p.multipleLines == Yes)
    ensures Encode(p)[OnlineSecurityAt] == Flag(p.onlineSecurity == Yes)
    ensures Encode(p)[OnlineBackupAt] == Flag(p.onlineBackup == Yes)
    ensures Encode(p)[DeviceProtectionAt] == Flag(p.deviceProtection == Yes)
    ensures Encode(p)[TechSupportAt] == Flag(p.techSupport == Yes)
    ensures Encode(p)[StreamingTVAt] == Flag(p.streamingTV == Yes)
    ensures Encode(p)[StreamingMoviesAt] == Flag(p.streamingMovies == Yes)
    ensures Encode(p)[PaperlessBillingAt] == Flag(p.paperlessBilling == Yes)
  {
  }

  /** Senior citizen, tenure and both charges are copied through unchanged. */
  lemma EncodePassThrough(p: Profile)
    ensures Encode(p)[SeniorCitizenAt] == p.seniorCitizen as real
    ensures Encode(p)[TenureAt] == p.tenure as real
    ensures Encode(p)[MonthlyChargesAt] == p.monthlyCharges
    ensures Encode(p)[TotalChargesAt] == p.totalCharges
  {
  }

  /** Columns 16-18 are one-hot, with the 1 at the selected option's place in the list DSL, Fiber optic, No. */
  lemma EncodeInternetOneHot(p: Profile)
    ensures IsOneHot(Encode(p)[InternetAt..ContractAt])
    ensures forall k :: 0 <= k < |InternetOptions| ==>
      (OneAt(Encode(p)[InternetAt..ContractAt], k) <==> InternetOptions[k] == p.internetService.Label())
  {
    var g := Encode(p)[InternetAt..ContractAt];
    forall j, k | 0 <= j < |InternetOptions| && OneAt(g, j) && OneAt(g, k)
      ensures j == k
    {
      OneAtUnique(g, j, k);
    }
    match p.internetService
    case DSL => assert OneAt(g, 0) && InternetOptions[0] == p.internetService.Label();
    case FiberOptic => assert OneAt(g, 1) && InternetOptions[1] == p.internetService.Label();
    case NoInternetService => assert OneAt(g, 2) && InternetOptions[2] == p.internetService.Label();
  }

  /** Columns 19-21 are one-hot, with the 1 at the selected option's place in the list Month-to-month, One year, Two year. */
  lemma EncodeContractOneHot(p: Profile)
    ensures IsOneHot(Encode(p)[ContractAt..PaymentAt])
    ensures forall k :: 0 <= k < |ContractOptions| ==>
      (OneAt(Encode(p)[ContractAt..PaymentAt], k) <==> ContractOptions[k] == p.contract.Label())
  {
    var g := Encode(p)[ContractAt..PaymentAt];
    forall j, k | 0 <= j < |ContractOptions| && OneAt(g, j) && OneAt(g, k)
      ensures j == k
    {
      OneAtUnique(g, j, k);
    }
    match p.contract
    case MonthToMonth => assert OneAt(g, 0) && ContractOptions[0] == p.contract.Label();
    case OneYear => assert OneAt(g, 1) && ContractOptions[1] == p.contract.Label();
    case TwoYear => assert OneAt(g, 2) && ContractOptions[2] == p.contract.Label();
  }

  /**
   Columns 22-25 are one-hot, with the 1 at the selected option's place in the
   list Bank transfer, Credit card, Electronic check, Mailed check.
   */
  lemma EncodePaymentOneHot(p: Profile)
    ensures IsOneHot(Encode(p)[PaymentAt..])
    ensures forall k :: 0 <= k < |PaymentOptions| ==>
      (OneAt(Encode(p)[PaymentAt..], k) <==> PaymentOptions[k] == p.paymentMethod.Label())
  {
    var g := Encode(p)[PaymentAt..];
    forall j, k | 0 <= j < |PaymentOptions| && OneAt(g, j) && OneAt(g, k)
      ensures j == k
    {
      OneAtUnique(g, j, k);
    }
    match p.paymentMethod
    case BankTransfer => assert OneAt(g, 0) && PaymentOptions[0] == p.paymentMethod.Label();
    case CreditCard => assert OneAt(g, 1) && PaymentOptions[1] == p.paymentMethod.Label();
    case ElectronicCheck => assert OneAt(g, 2) && PaymentOptions[2] == p.paymentMethod.Label();
    case MailedCheck => assert OneAt(g, 3) && PaymentOptions[3] == p.paymentMethod.Label();
  }

  /** The last ten columns, the three one-hot groups, always sum to exactly 3. */
  lemma EncodeOneHotTailSum(p: Profile)
    ensures Sum(Encode(p)[InternetAt..]) == 3.0
  {
    var v := Encode(p);
    var internet, contract, payment := v[InternetAt..ContractAt], v[ContractAt..PaymentAt], v[PaymentAt..];
    EncodeInternetOneHot(p);
    EncodeContractOneHot(p);
    EncodePaymentOneHot(p);
    var i :| OneAt(internet, i);
    var c :| OneAt(contract, c);
    var m :| OneAt(payment, m);
    OneHotSum(internet, i);
    OneHotSum(contract, c);
    OneHotSum(payment, m);
    assert v[InternetAt..] == internet + (contract + payment);
    SumConcat(contract, payment);
    SumConcat(internet, contract + payment);
  }

  /**
   Within the bounds the number widgets impose, every column is non-negative,
   and every column except tenure and the two charges is 0 or 1.
   */
  lemma EncodeRanges(p: Profile)
    requires WithinWidgetBounds(p)
    ensures forall i :: 0 <= i < FeatureCount ==> 0.0 <= Encode(p)[i]
    ensures forall i :: 0 <= i < FeatureCount && i != TenureAt && i != MonthlyChargesAt && i != TotalChargesAt ==>
      IsBit(Encode(p)[i])
  {
    var v := Encode(p);
    forall i | 0 <= i < FeatureCount
      ensures 0.0 <= v[i]
      ensures i != TenureAt && i != MonthlyChargesAt && i != TotalChargesAt ==> IsBit(v[i])
    {
      ColumnIndices(i);
    }
  }

  /** A column index is one of the 26 positions (used to split a proof column by column). */
  lemma ColumnIndices(i: int)
    requires 0 <= i < FeatureCount
    ensures i == 0 || i == 1 || i == 2 || i == 3 || i == 4 || i == 5 || i == 6 || i == 7 || i == 8
         || i == 9 || i == 10 || i == 11 || i == 12 || i == 13 || i == 14 || i == 15 || i == 16
         || i == 17 || i == 18 || i == 19 || i == 20 || i == 21 || i == 22 || i == 23 || i == 24 || i == 25
  {
  }

  /** A worked example: a female month-to-month fiber customer paying by electronic check. */
  lemma EncodeExample()
    ensures Encode(Profile(Female, 0, Yes, No, 5, Yes, No, No, Yes, No, No, No, No, Yes, 70.5, 352.5,
                           FiberOptic, MonthToMonth, ElectronicCheck))
         == [1.0, 0.0, 1.0, 0.0, 5.0, 1.0, 0.0, 0.0, 1.0, 0.0, 0.0, 0.0, 0.0, 1.0, 70.5, 352.5,
             0.0, 1.0, 0.0, 1.0, 0.0, 0.0, 0.0, 0.0, 1.0, 0.0]
  {
  }

}
