/**
 The customer form of the churn predictor: the value domain of every input
 widget, the profile the form produces, and the `binary_map` lookup table that
 turns Yes/No and gender answers into numbers.

 Each categorical answer is an enumerated type whose `Label()` is the exact
 string the select box offers. The encoder works on the enumerated values;
 the `*Domain` lemmas prove that comparing answers is the same as comparing
 the strings the boxes return, and `BinaryMapLookup` proves that looking a
 label up in `binary_map` succeeds and yields the bit the encoder uses.
 */
module Customer {

  /** Answer of a Yes/No select box; the box lists "No" first. */
  datatype YesNo = No | Yes {
    function Label(): string {
      match this
      case No => "No"
      case Yes => "Yes"
    }
  }

  datatype Gender = Male | Female {
    function Label(): string {
      match this
      case Male => "Male"
      case Female => "Female"
    }
  }

  datatype InternetService = DSL | FiberOptic | NoInternetService {
    function Label(): string {
      match this
      case DSL => "DSL"
      case FiberOptic => "Fiber optic"
      case NoInternetService => "No"
    }
  }

  datatype Contract = MonthToMonth | OneYear | TwoYear {
    function Label(): string {
      match this
      case MonthToMonth => "Month-to-month"
      case OneYear => "One year"
      case TwoYear => "Two year"
    }
  }

  datatype PaymentMethod = BankTransfer | CreditCard | ElectronicCheck | MailedCheck {
    function Label(): string {
      match this
      case BankTransfer => "Bank transfer (automatic)"
      case CreditCard => "Credit card (automatic)"
      case ElectronicCheck => "Electronic check"
      case MailedCheck => "Mailed check"
    }
  }

  /** The options of each select box, in the order the form lists them. */
  const YesNoOptions: seq<string> := ["No", "Yes"]
  const GenderOptions: seq<string> := ["Male", "Female"]
  const InternetOptions: seq<string> := ["DSL", "Fiber optic", "No"]
  const ContractOptions: seq<string> := ["Month-to-month", "One year", "Two year"]
  const PaymentOptions: seq<string> :=
    ["Bank transfer (automatic)", "Credit card (automatic)", "Electronic check", "Mailed check"]

  /** The answers of one filled-in form. */
  datatype Profile = Profile(
    gender: Gender,
    seniorCitizen: int,
    partner: YesNo,
    dependents: YesNo,
    tenure: int,
    phoneService: YesNo,
    multipleLines: YesNo,
    onlineSecurity: YesNo,
    onlineBackup: YesNo,
    deviceProtection: YesNo,
    techSupport: YesNo,
    streamingTV: YesNo,
    streamingMovies: YesNo,
    paperlessBilling: YesNo,
    monthlyCharges: real,
    totalCharges: real,
    internetService: InternetService,
    contract: Contract,
    paymentMethod: PaymentMethod)

  /** The bounds the number widgets impose: senior citizen in [0, 1], tenure and both charges at least 0. */
  predicate WithinWidgetBounds(p: Profile) {
    && 0 <= p.seniorCitizen <= 1
    && 0 <= p.tenure
    && 0.0 <= p.monthlyCharges
    && 0.0 <= p.totalCharges
  }

  /** The shared lookup table for Yes/No and gender answers. */
  const BinaryMap: map<string, int> := map["Yes" := 1, "No" := 0, "Male" := 0, "Female" := 1]

  /** The number `binary_map` gives a Yes/No answer. */
  function YesNoBit(y: YesNo): int {
    match y
    case Yes => 1
    case No => 0
  }

  /** The number `binary_map` gives a gender answer. */
  function GenderBit(g: Gender): int {
    match g
    case Male => 0
    case Female => 1
  }

  /**
   Looking an answer's label up in `binary_map` never fails and yields the
   answer's bit: 1 for "Yes", 0 for "No", 0 for Male, 1 for Female.
   */
  lemma BinaryMapLookup()
    ensures forall y: YesNo :: y.Label() in BinaryMap && BinaryMap[y.Label()] == YesNoBit(y)
    ensures forall g: Gender :: g.Label() in BinaryMap && BinaryMap[g.Label()] == GenderBit(g)
    ensures YesNoBit(Yes) == 1 && YesNoBit(No) == 0
    ensures GenderBit(Male) == 0 && GenderBit(Female) == 1
  {
    forall y: YesNo ensures y.Label() in BinaryMap && BinaryMap[y.Label()] == YesNoBit(y) {
      match y
      case Yes =>
      case No =>
    }
    forall g: Gender ensures g.Label() in BinaryMap && BinaryMap[g.Label()] == GenderBit(g) {
      match g
      case Male =>
      case Female =>
    }
  }

  /**
   A select box offers exactly the labels of its datatype, each once, and
   distinct answers carry distinct labels (so comparing answers is comparing
   the strings the box returns).
   */
  ghost predicate OffersExactly<T(!new)>(options: seq<string>, labelOf: T -> string) {
    && (forall x: T, y: T :: labelOf(x) == labelOf(y) ==> x == y)
    && (forall x: T :: labelOf(x) in options)
    && (forall k :: 0 <= k < |options| ==> exists x: T :: labelOf(x) == options[k])
    && (forall j, k :: 0 <= j < k < |options| ==> options[j] != options[k])
  }

  /** The Yes/No answers are exactly the options of a Yes/No box. */
  lemma YesNoDomain()
    ensures OffersExactly(YesNoOptions, (y: YesNo) => y.Label())
  {
    var f := (y: YesNo) => y.Label();
    assert f(No) == YesNoOptions[0] && f(Yes) == YesNoOptions[1];
    forall y: YesNo ensures f(y) in YesNoOptions {
      match y
      case No =>
      case Yes =>
    }
  }

  /** The genders are exactly the options of the gender box. */
  lemma GenderDomain()
    ensures OffersExactly(GenderOptions, (g: Gender) => g.Label())
  {
    var f := (g: Gender) => g.Label();
    assert f(Male) == GenderOptions[0] && f(Female) == GenderOptions[1];
    forall g: Gender ensures f(g) in GenderOptions {
      match g
      case Male =>
      case Female =>
    }
  }

  /** The internet services are exactly the options of the internet-service box. */
  lemma InternetDomain()
    ensures OffersExactly(InternetOptions, (s: InternetService) => s.Label())
  {
    var f := (s: InternetService) => s.Label();
    assert f(DSL) == InternetOptions[0] && f(FiberOptic) == InternetOptions[1];
    assert f(NoInternetService) == InternetOptions[2];
    forall s: InternetService ensures f(s) in InternetOptions {
      match s
      case DSL =>
      case FiberOptic =>
      case NoInternetService =>
    }
  }

  /** The contract types are exactly the options of the contract box. */
  lemma ContractDomain()
    ensures OffersExactly(ContractOptions, (c: Contract) => c.Label())
  {
    var f := (c: Contract) => c.Label();
    assert f(MonthToMonth) == ContractOptions[0] && f(OneYear) == ContractOptions[1];
    assert f(TwoYear) == ContractOptions[2];
    forall c: Contract ensures f(c) in ContractOptions {
      match c
      case MonthToMonth =>
      case OneYear =>
      case TwoYear =>
    }
  }

  /** The payment methods are exactly the options of the payment-method box. */
  lemma PaymentDomain()
    ensures OffersExactly(PaymentOptions, (m: PaymentMethod) => m.Label())
  {
    var f := (m: PaymentMethod) => m.Label();
    assert f(BankTransfer) == PaymentOptions[0] && f(CreditCard) == PaymentOptions[1];
    assert f(ElectronicCheck) == PaymentOptions[2] && f(MailedCheck) == PaymentOptions[3];
    // the four labels have different lengths, hence are different strings
    assert |f(BankTransfer)| == 25 && |f(CreditCard)| == 23 && |f(ElectronicCheck)| == 16 && |f(MailedCheck)| == 12;
    forall m: PaymentMethod ensures f(m) in PaymentOptions {
      match m
      case BankTransfer =>
      case CreditCard =>
      case ElectronicCheck =>
      case MailedCheck =>
    }
  }

}
