/** The inference script: normalise the two category inputs, encode them
    only when both are known to their encoders, then decide through an
    ordered cascade of business overrides that falls back to the trained
    classifier. */
module Prediction {
  import opened Text
  import opened Encoding

  /** The verdict printed as "Final Decision". */
  datatype Outcome = Cancelled | NotCancelled {
    function Name(): string {
      match this
      case Cancelled => "CANCELLED"
      case NotCancelled => "NOT CANCELLED"
    }
  }

  /** The rationale printed as "Decision Basis", one per branch of the
      cascade, in the order the branches are tried. */
  datatype Reason = UnknownCategory | LateNight | ShortCashRide | MachineLearning {
    function Message(): string {
      match this
      case UnknownCategory => "Unknown vehicle/payment category (business override)"
      case LateNight => "Late-night ride with low driver availability"
      case ShortCashRide => "Low driver acceptance for short cash rides"
      case MachineLearning => "Machine Learning prediction"
    }
  }

  datatype Verdict = Verdict(outcome: Outcome, reason: Reason)

  /** The three loaded artifacts. The classifier is known only through the
      label it predicts for a feature row
      [vehicle code, payment code, ride distance, booking hour]. */
  datatype Artifacts = Artifacts(
    model: seq<real> -> int,
    vehicleEncoder: Encoder,
    paymentEncoder: Encoder)

  /** One booking request: the two category strings, the distance in km
      and the hour as read, before or after normalisation. */
  datatype Request = Request(
    vehicleType: string,
    paymentMethod: string,
    rideDistance: real,
    bookingHour: int)

  /** The normalisation applied as the inputs are read: the vehicle type
      stripped and upper-cased, the payment method stripped and
      title-cased; distance and hour are kept. */
  function Normalise(raw: Request): (req: Request)
    ensures Trimmed(req.vehicleType) && Trimmed(req.paymentMethod)
    ensures forall i :: 0 <= i < |req.vehicleType| ==> !IsLower(req.vehicleType[i])
    ensures req.rideDistance == raw.rideDistance && req.bookingHour == raw.bookingHour
  {
    StripSpec(raw.vehicleType);
    StripSpec(raw.paymentMethod);
    UpperSpec(Strip(raw.vehicleType));
    TitleTrimmed(Strip(raw.paymentMethod));
    Request(Upper(Strip(raw.vehicleType)), Title(Strip(raw.paymentMethod)),
            raw.rideDistance, raw.bookingHour)
  }

  /** Both categories are in their encoders' classes. */
  predicate Known(req: Request, art: Artifacts) {
    art.vehicleEncoder.Contains(req.vehicleType) && art.paymentEncoder.Contains(req.paymentMethod)
  }

  predicate IsLateNight(hour: int) {
    hour >= 23 || hour <= 5
  }

  predicate IsShortCash(req: Request) {
    req.rideDistance < 2.0 && req.paymentMethod == "Cash"
  }

  /** The row handed to the classifier, columns in the order the request
      was built. */
  function FeatureRow(req: Request, art: Artifacts): (row: seq<real>)
    requires Known(req, art)
    ensures |row| == 4
    ensures row[0] == row[0].Floor as real && row[1] == row[1].Floor as real
    ensures 0 <= row[0].Floor && art.vehicleEncoder.Transform(req.vehicleType) == Code(row[0].Floor as nat)
    ensures 0 <= row[1].Floor && art.paymentEncoder.Transform(req.paymentMethod) == Code(row[1].Floor as nat)
    ensures art.vehicleEncoder.InverseTransform(row[0].Floor) == Label(req.vehicleType)
    ensures art.paymentEncoder.InverseTransform(row[1].Floor) == Label(req.paymentMethod)
    ensures row[2] == req.rideDistance && row[3] == req.bookingHour as real
  {
    [art.vehicleEncoder.Transform(req.vehicleType).code as real,
     art.paymentEncoder.Transform(req.paymentMethod).code as real,
     req.rideDistance,
     req.bookingHour as real]
  }

  /** The decision cascade on a normalised request: the first branch whose
      condition holds decides. */
  function Cascade(req: Request, art: Artifacts): (v: Verdict)
    ensures v.reason == UnknownCategory <==> !Known(req, art)
    ensures v.reason != MachineLearning ==> v.outcome == Cancelled
  {
    if !Known(req, art) then Verdict(Cancelled, UnknownCategory)
    else if IsLateNight(req.bookingHour) then Verdict(Cancelled, LateNight)
    else if IsShortCash(req) then Verdict(Cancelled, ShortCashRide)
    else if art.model(FeatureRow(req, art)) == 1 then Verdict(Cancelled, MachineLearning)
    else Verdict(NotCancelled, MachineLearning)
  }

  // ---------------------------------------------------------------------
  // The script, step by step

  /** A category column of the one-row frame: the string as entered, or the
      code that replaced it. */
  datatype Cell = Raw(text: string) | Coded(code: nat)

  /** The one-row data frame built from the request, whose category columns
      are overwritten in place by their codes. */
  class Frame {
    var vehicleType: Cell
    var paymentMethod: Cell
    var rideDistance: real
    var bookingHour: int

    constructor (req: Request)
      ensures vehicleType == Raw(req.vehicleType) && paymentMethod == Raw(req.paymentMethod)
      ensures rideDistance == req.rideDistance && bookingHour == req.bookingHour
    {
      vehicleType := Raw(req.vehicleType);
      paymentMethod := Raw(req.paymentMethod);
      rideDistance := req.rideDistance;
      bookingHour := req.bookingHour;
    }

    predicate Encoded()
      reads this
    {
      vehicleType.Coded? && paymentMethod.Coded?
    }

    /** The frame as the numeric row the classifier reads: the two codes
        as whole non-negative numbers, then distance and hour unchanged. */
    function Row(): (row: seq<real>)
      reads this
      requires Encoded()
      ensures |row| == 4
      ensures row[0] == row[0].Floor as real && row[1] == row[1].Floor as real
      ensures row[0].Floor == vehicleType.code && row[1].Floor == paymentMethod.code
      ensures row[2] == rideDistance && row[3] == bookingHour as real
    {
      [vehicleType.code as real, paymentMethod.code as real, rideDistance, bookingHour as real]
    }
  }

  /** The safe-encoding block: raise the unknown-category flag when either
      category is missing from its encoder, and otherwise replace both
      category columns by their codes, leaving the rest of the frame as it
      was. */
  method SafeEncode(userData: Frame, vehicleEncoder: Encoder, paymentEncoder: Encoder)
    returns (unknownCategory: bool)
    requires userData.vehicleType.Raw? && userData.paymentMethod.Raw?
    modifies userData
    ensures unknownCategory == !(vehicleEncoder.Contains(old(userData.vehicleType.text))
                                 && paymentEncoder.Contains(old(userData.paymentMethod.text)))
    ensures unknownCategory ==> unchanged(userData)
    ensures !unknownCategory ==>
              userData.vehicleType == Coded(vehicleEncoder.Transform(old(userData.vehicleType.text)).code)
              && userData.paymentMethod == Coded(paymentEncoder.Transform(old(userData.paymentMethod.text)).code)
    ensures userData.rideDistance == old(userData.rideDistance)
    ensures userData.bookingHour == old(userData.bookingHour)
  {
    unknownCategory := false;
    if !vehicleEncoder.Contains(userData.vehicleType.text) {
      unknownCategory := true;
    }
    if !paymentEncoder.Contains(userData.paymentMethod.text) {
      unknownCategory := true;
    }
    if !unknownCategory {
      userData.vehicleType := Coded(vehicleEncoder.Transform(userData.vehicleType.text).code);
      userData.paymentMethod := Coded(paymentEncoder.Transform(userData.paymentMethod.text).code);
    }
  }

  /** The whole script on one request as read: normalise, build the frame,
      encode safely, then run the override cascade. Both outputs start
      unset and every path sets them exactly once. */
  method Predict(raw: Request, art: Artifacts) returns (finalDecision: Outcome, reason: Reason)
    ensures Verdict(finalDecision, reason) == Cascade(Normalise(raw), art)
  {
    var vehicleType := Upper(Strip(raw.vehicleType));
    var paymentMethod := Title(Strip(raw.paymentMethod));
    var rideDistance := raw.rideDistance;
    var bookingHour := raw.bookingHour;
    var req := Request(vehicleType, paymentMethod, rideDistance, bookingHour);
    assert req == Normalise(raw);

    var userData := new Frame(req);
    var unknownCategory := SafeEncode(userData, art.vehicleEncoder, art.paymentEncoder);

    var decision: Option<Outcome> := None;
    var basis: Option<Reason> := None;
    if unknownCategory {
      decision, basis := Some(Cancelled), Some(UnknownCategory);
    } else if bookingHour >= 23 || bookingHour <= 5 {
      decision, basis := Some(Cancelled), Some(LateNight);
    } else if rideDistance < 2.0 && paymentMethod == "Cash" {
      decision, basis := Some(Cancelled), Some(ShortCashRide);
    } else {
      assert userData.Row() == FeatureRow(req, art);
      var mlPrediction := art.model(userData.Row());
      if mlPrediction == 1 {
        decision, basis := Some(Cancelled), Some(MachineLearning);
      } else {
        decision, basis := Some(NotCancelled), Some(MachineLearning);
      }
    }
    finalDecision, reason := decision.value, basis.value;
  }

  // ---------------------------------------------------------------------
  // Properties of the cascade

  /** Whether a branch's own condition holds, read on its own. */
  predicate Guard(rule: Reason, req: Request, art: Artifacts) {
    match rule
    case UnknownCategory => !Known(req, art)
    case LateNight => IsLateNight(req.bookingHour)
    case ShortCashRide => IsShortCash(req)
    case MachineLearning => true
  }

  /** The branches in the order the script tries them. */
  const Branches: seq<Reason> := [UnknownCategory, LateNight, ShortCashRide, MachineLearning]

  /** The first rule in `rules` whose guard holds. */
  function FirstMatch(rules: seq<Reason>, req: Request, art: Artifacts): (r: Reason)
    requires MachineLearning in rules
    ensures r in rules && Guard(r, req, art)
    ensures exists k :: 0 <= k < |rules| && rules[k] == r && forall j :: 0 <= j < k ==> !Guard(rules[j], req, art)
  {
    if Guard(rules[0], req, art) then rules[0]
    else
      var r := FirstMatch(rules[1..], req, art);
      ghost var k :| 0 <= k < |rules[1..]| && rules[1..][k] == r
                     && forall j :: 0 <= j < k ==> !Guard(rules[1..][j], req, art);
      assert rules[k + 1] == r;
      r
  }

  /** Rule precedence: the reason given is the first branch, in script
      order, whose condition holds; later branches are never reached. */
  lemma {:induction false} CascadeIsFirstMatch(req: Request, art: Artifacts)
    ensures Cascade(req, art).reason == FirstMatch(Branches, req, art)
  {
    var r := FirstMatch(Branches, req, art);
    ghost var k :| 0 <= k < |Branches| && Branches[k] == r
                   && forall j :: 0 <= j < k ==> !Guard(Branches[j], req, art);
    assert Guard(Branches[0], req, art) ==> k == 0;
    assert Guard(Branches[1], req, art) ==> k <= 1;
    assert Guard(Branches[2], req, art) ==> k <= 2;
  }

  /** An unknown category cancels whatever the hour and the distance. */
  lemma UnknownCategoryOverrides(req: Request, art: Artifacts)
    requires !Known(req, art)
    ensures Cascade(req, art) == Verdict(Cancelled, UnknownCategory)
  {
  }

  /** With known categories, the late-night branch decides exactly for the
      hours from 23 up and from 5 down; hours 6 to 22 go on. */
  lemma LateNightBoundary(req: Request, art: Artifacts)
    requires Known(req, art)
    ensures Cascade(req, art).reason == LateNight <==> req.bookingHour >= 23 || req.bookingHour <= 5
    ensures Cascade(req, art).reason == LateNight ==> Cascade(req, art).outcome == Cancelled
  {
  }

  /** With known categories and an hour from 6 to 22, the short-cash branch
      decides exactly when the distance is below 2 and the payment is
      "Cash". */
  lemma ShortCashBoundary(req: Request, art: Artifacts)
    requires Known(req, art) && 6 <= req.bookingHour <= 22
    ensures Cascade(req, art).reason == ShortCashRide <==> req.rideDistance < 2.0 && req.paymentMethod == "Cash"
    ensures Cascade(req, art).reason == ShortCashRide ==> Cascade(req, art).outcome == Cancelled
  {
  }

  /** When no override applies the classifier decides, on the row
      [vehicle code, payment code, distance, hour]: 1 cancels and any other
      label does not. */
  lemma ModelDecides(req: Request, art: Artifacts)
    requires Known(req, art) && 6 <= req.bookingHour <= 22
    requires !(req.rideDistance < 2.0 && req.paymentMethod == "Cash")
    ensures Cascade(req, art).reason == MachineLearning
    ensures Cascade(req, art).outcome == Cancelled <==>
              art.model([art.vehicleEncoder.Transform(req.vehicleType).code as real,
                         art.paymentEncoder.Transform(req.paymentMethod).code as real,
                         req.rideDistance,
                         req.bookingHour as real]) == 1
  {
  }

  /** Only the classifier can let a booking through: every override
      cancels. */
  lemma OnlyModelClears(req: Request, art: Artifacts)
    ensures Cascade(req, art).outcome == NotCancelled ==> Cascade(req, art).reason == MachineLearning
    ensures Cascade(req, art).reason != MachineLearning ==> Cascade(req, art).outcome == Cancelled
  {
  }

  /** Normalising twice is normalising once, so a request read with its
      categories already in the encoders' spelling is left alone. */
  lemma {:induction false} NormaliseIdempotent(raw: Request)
    ensures Normalise(Normalise(raw)) == Normalise(raw)
  {
    var req := Normalise(raw);
    StripTrimmed(req.vehicleType);
    StripTrimmed(req.paymentMethod);
    UpperIdempotent(Strip(raw.vehicleType));
    TitleIdempotent(Strip(raw.paymentMethod));
  }

  /** Surrounding whitespace and any mixture of case in the payment method
      reach the spelling the encoder knows. */
  lemma PaymentSpellings()
    ensures Title(Strip(" cash")) == "Cash"
    ensures Title(Strip("CASH")) == "Cash"
    ensures Title(Strip("online ")) == "Online"
  {
    PaymentStrips();
    PaymentTitles();
  }

  lemma PaymentStrips()
    ensures Strip(" cash") == "cash" && Strip("CASH") == "CASH" && Strip("online ") == "online"
  {
  }

  lemma PaymentTitles()
    ensures Title("cash") == "Cash" && Title("CASH") == "Cash" && Title("online") == "Online"
  {
  }

  /** The payment methods of the sample requests below, as typed, are
      already in the spelling the encoder knows. */
  lemma SamplePaymentSpellings()
    ensures Title(Strip("Cash")) == "Cash"
    ensures Title(Strip("Online")) == "Online"
  {
  }

  /** A vehicle type typed in lower case with a trailing space reaches the
      upper-case spelling the encoder knows. */
  lemma VehicleSpelling()
    ensures Upper(Strip("sedan ")) == "SEDAN"
  {
    assert Strip("sedan ") == "sedan" by {
      assert "sedan " == "" + "sedan" + " ";
      StripPadded("", "sedan", " ");
    }
    UpperSpec("sedan");
  }

  /** The vehicle types of the sample requests below, as typed, reach the
      upper-case spelling they are stated in. */
  lemma SampleVehicleSpellings()
    ensures Upper(Strip("Helicopter")) == "HELICOPTER"
    ensures Upper(Strip("Sedan")) == "SEDAN"
    ensures Upper(Strip("SUV")) == "SUV"
    ensures Upper(Strip("Mini")) == "MINI"
  {
    HelicopterSpelling();
    SedanSpelling();
    SuvSpelling();
    MiniSpelling();
  }

  lemma HelicopterSpelling()
    ensures Upper(Strip("Helicopter")) == "HELICOPTER"
  {
    UpperOfTrimmed("Helicopter", "HELICOPTER");
  }

  lemma SedanSpelling()
    ensures Upper(Strip("Sedan")) == "SEDAN"
  {
    UpperOfTrimmed("Sedan", "SEDAN");
  }

  lemma SuvSpelling()
    ensures Upper(Strip("SUV")) == "SUV"
  {
    UpperOfTrimmed("SUV", "SUV");
  }

  lemma MiniSpelling()
    ensures Upper(Strip("Mini")) == "MINI"
  {
    UpperOfTrimmed("Mini", "MINI");
  }

  /** A word with no surrounding whitespace normalises to its capitals. */
  lemma UpperOfTrimmed(w: string, caps: string)
    requires Trimmed(w) && |caps| == |w|
    requires forall i :: 0 <= i < |w| ==> caps[i] == UpperChar(w[i])
    ensures Upper(Strip(w)) == caps
  {
    StripTrimmed(w);
    UpperSpec(w);
  }

  // ---------------------------------------------------------------------
  // Sample requests, as they read once normalised

  /** Encoders fitted on vehicle types AUTO, MINI, SEDAN, SUV and payment
      methods Cash, Online (classes in sorted order, as a label encoder
      keeps them). */
  predicate FittedOnSample(art: Artifacts) {
    art.vehicleEncoder == Encoder(["AUTO", "MINI", "SEDAN", "SUV"])
    && art.paymentEncoder == Encoder(["Cash", "Online"])
  }

  /** A vehicle type never seen in training ("Helicopter") is cancelled by
      the unknown-category override, even at an hour and distance no other
      override covers, whatever the classifier says. */
  lemma UnseenVehicleScenario(art: Artifacts)
    requires FittedOnSample(art)
    ensures Cascade(Request("HELICOPTER", "Cash", 5.0, 14), art) == Verdict(Cancelled, UnknownCategory)
  {
  }

  /** A 1.5 km cash ride in a Sedan in the afternoon is cancelled by the
      short-cash override. */
  lemma ShortCashScenario(art: Artifacts)
    requires FittedOnSample(art)
    ensures Cascade(Request("SEDAN", "Cash", 1.5, 14), art) == Verdict(Cancelled, ShortCashRide)
  {
  }

  /** An SUV booked at 1 a.m. is cancelled by the late-night override
      before the classifier is consulted. */
  lemma LateNightScenario(art: Artifacts)
    requires FittedOnSample(art)
    ensures Cascade(Request("SUV", "Online", 10.0, 1), art) == Verdict(Cancelled, LateNight)
  {
  }

  /** With no override applicable, the outcome is the classifier's on the
      row [1, 1, 8, 14]: MINI and Online are both at position 1. */
  lemma ModelScenario(art: Artifacts)
    requires FittedOnSample(art)
    ensures Cascade(Request("MINI", "Online", 8.0, 14), art).reason == MachineLearning
    ensures Cascade(Request("MINI", "Online", 8.0, 14), art).outcome
            == if art.model([1.0, 1.0, 8.0, 14.0]) == 1 then Cancelled else NotCancelled
  {
  }
}
