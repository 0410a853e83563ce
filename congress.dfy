/** Bill scoring and classification (the pure part of the Congress.gov client). */
module Congress {
  import opened Wrappers
  import opened Text

  /** The smaller and the larger party count, as `Math.min` and `Math.max`. */
  function Min(a: nat, b: nat): nat { if a <= b then a else b }
  function Max(a: nat, b: nat): nat { if a <= b then b else a }

  /**
   * `calculateBipartisanScore` in hundredths: 0 when a side has no members,
   * otherwise min/max rounded to two decimals, halves rounded up.
   */
  function BipartisanHundredths(rCount: nat, dCount: nat): (h: nat)
    ensures rCount == 0 || dCount == 0 ==> h == 0
    ensures h <= 100
  {
    if rCount == 0 || dCount == 0 then 0
    else
      var lo, hi := Min(rCount, dCount), Max(rCount, dCount);
      DivBelow(200 * lo + hi, 2 * hi, 101);
      (200 * lo + hi) / (2 * hi)
  }

  /** Cancels a common factor in a strict inequality, for `ScoreZeroIff`. */
  lemma MulLeftStrict(m: nat, a: nat, b: nat)
    requires m * a < m * b
    ensures a < b
  {
  }

  /** A quotient below a bound, for `ScoreZeroIff`. */
  lemma DivBelow(n: nat, m: nat, q: nat)
    requires m > 0 && n < m * q
    ensures n / m < q
  {
    assert m * (n / m) <= n;
    MulLeftStrict(m, n / m, q);
  }

  /** The score as the route stores it: a number in [0, 1]. */
  function BipartisanScore(rCount: nat, dCount: nat): (s: real)
    ensures 0.0 <= s <= 1.0
    ensures s == 0.0 <==> BipartisanHundredths(rCount, dCount) == 0
  {
    BipartisanHundredths(rCount, dCount) as real / 100.0
  }

  /** The hundredths are min/max * 100 rounded to the nearest integer, halves upward. */
  lemma ScoreIsRoundedRatio(rCount: nat, dCount: nat)
    requires rCount > 0 && dCount > 0
    ensures var h := BipartisanHundredths(rCount, dCount);
            var lo, hi := Min(rCount, dCount), Max(rCount, dCount);
            2 * hi * h <= 200 * lo + hi < 2 * hi * (h + 1)
  {
    var lo, hi := Min(rCount, dCount), Max(rCount, dCount);
    var n, m := 200 * lo + hi, 2 * hi;
    assert n == m * (n / m) + n % m;
  }

  lemma ScoreSymmetric(rCount: nat, dCount: nat)
    ensures BipartisanHundredths(rCount, dCount) == BipartisanHundredths(dCount, rCount)
  {
  }

  /** Equal non-zero support on both sides scores 1. */
  lemma ScoreOneWhenBalanced(n: nat)
    requires n > 0
    ensures BipartisanScore(n, n) == 1.0
  {
    assert 2 * n * 100 <= 201 * n < 2 * n * 101;
    assert (201 * n) / (2 * n) == 100;
  }

  /** Four on one side and two on the other scores one half. */
  lemma ScoreFourTwo()
    ensures BipartisanScore(4, 2) == 0.5
  {
    assert BipartisanHundredths(4, 2) == 404 / 8 == 50;
  }

  /**
   * A score of 0 means a side is empty or the minority is below half a percent
   * of the majority (so the bills route also skips very lopsided bills).
   */
  lemma ScoreZeroIff(rCount: nat, dCount: nat)
    ensures BipartisanHundredths(rCount, dCount) == 0 <==>
            rCount == 0 || dCount == 0 || 200 * Min(rCount, dCount) < Max(rCount, dCount)
  {
    if rCount > 0 && dCount > 0 {
      ScoreIsRoundedRatio(rCount, dCount);
    }
  }

  /** The seven statuses `deriveBillStatus` can return. */
  datatype BillStatus = Introduced | Committee | Floor | PassedOne | PassedBoth | Enacted | Vetoed

  function StatusName(s: BillStatus): string
  {
    match s
    case Introduced => "introduced"
    case Committee => "committee"
    case Floor => "floor"
    case PassedOne => "passed_one"
    case PassedBoth => "passed_both"
    case Enacted => "enacted"
    case Vetoed => "vetoed"
  }

  /** The stored names are distinct, so "enacted" names only the enacted status. */
  lemma EnactedName(s: BillStatus)
    ensures StatusName(s) == "enacted" <==> s == Enacted
  {
    if s != Enacted {
      assert StatusName(s)[0] != 'e' || |StatusName(s)| != 7;
    }
  }

  predicate Says(text: string, phrase: string)
  {
    Contains(ToLower(text), phrase)
  }

  /**
   * `deriveBillStatus`: the first phrase found in the lower-cased latest action
   * decides; a missing or empty action is "introduced".
   */
  function DeriveBillStatus(latestActionText: Option<string>): (s: BillStatus)
    ensures latestActionText.None? || latestActionText.value == "" ==> s == Introduced
  {
    if latestActionText.None? || latestActionText.value == "" then Introduced
    else Classify(ToLower(latestActionText.value))
  }

  /** The phrase tests on the lower-cased text, in the order they are tried. */
  function Classify(text: string): BillStatus
  {
    if Contains(text, "became public law") || Contains(text, "signed by president") then Enacted
    else if Contains(text, "vetoed") then Vetoed
    else if Contains(text, "passed senate") && Contains(text, "passed house") then PassedBoth
    else if Contains(text, "received in the senate") || Contains(text, "received in the house") then PassedOne
    else if Contains(text, "passed house") || Contains(text, "passed senate") then PassedOne
    else if Contains(text, "placed on") || Contains(text, "motion to proceed") then Floor
    else if Contains(text, "reported") || Contains(text, "ordered to be reported") then Committee
    else Introduced
  }

  /** Enactment phrases win over everything else, "passed senate" included. */
  lemma EnactedWins(t: string)
    requires Says(t, "became public law") || Says(t, "signed by president")
    ensures DeriveBillStatus(Some(t)) == Enacted
  {
  }

  /** Without an enactment phrase, "vetoed" beats any "passed" phrase. */
  lemma VetoedBeatsPassed(t: string)
    requires Says(t, "vetoed")
    requires !Says(t, "became public law") && !Says(t, "signed by president")
    ensures DeriveBillStatus(Some(t)) == Vetoed
  {
  }

  /** "passed_both" needs both chambers' phrases (and no enactment or veto). */
  lemma PassedBothNeedsBoth(t: Option<string>)
    ensures DeriveBillStatus(t) == PassedBoth <==>
            t.Some? && t.value != "" &&
            !(Says(t.value, "became public law") || Says(t.value, "signed by president")) &&
            !Says(t.value, "vetoed") &&
            Says(t.value, "passed senate") && Says(t.value, "passed house")
  {
  }

  lemma {:induction false} LowerOfUpper(s: string)
    ensures ToLower(ToUpper(s)) == ToLower(s)
  {
    assert forall i :: 0 <= i < |s| ==> LowerChar(UpperChar(s[i])) == LowerChar(s[i]);
  }

  /** Classification ignores the case of ASCII letters. */
  lemma StatusIgnoresCase(t: string)
    ensures DeriveBillStatus(Some(ToUpper(t))) == DeriveBillStatus(Some(t))
  {
    LowerOfUpper(t);
  }

  /** `isAdvancedBill`: the derived status is past introduction and not a veto. */
  function IsAdvancedBill(latestActionText: Option<string>): (b: bool)
    ensures b <==> DeriveBillStatus(latestActionText) in {Committee, Floor, PassedOne, PassedBoth, Enacted}
    ensures b <==> DeriveBillStatus(latestActionText) !in {Introduced, Vetoed}
  {
    var s := DeriveBillStatus(latestActionText);
    s == Committee || s == Floor || s == PassedOne || s == PassedBoth || s == Enacted
  }

  /** The citation prefixes of the known bill types. */
  const TypePrefix: map<string, string> :=
    map["hr" := "H.R.", "s" := "S.", "hjres" := "H.J.Res.", "sjres" := "S.J.Res.",
        "hconres" := "H.Con.Res.", "sconres" := "S.Con.Res.", "hres" := "H.Res.", "sres" := "S.Res."]

  /** `formatBillId`: the known prefix for the lower-cased type, else the type upper-cased. */
  function FormatBillId(billType: string, number: string): (r: string)
    ensures ToLower(billType) in TypePrefix ==> r == TypePrefix[ToLower(billType)] + " " + number
    ensures ToLower(billType) !in TypePrefix ==> r == ToUpper(billType) + " " + number
  {
    var key := ToLower(billType);
    (if key in TypePrefix then TypePrefix[key] else ToUpper(billType)) + " " + number
  }

  lemma {:induction false} UpperIdempotent(s: string)
    ensures ToUpper(ToUpper(s)) == ToUpper(s)
  {
    assert forall i :: 0 <= i < |s| ==> UpperChar(UpperChar(s[i])) == UpperChar(s[i]);
  }

  /** The type's case does not matter. */
  lemma FormatIgnoresCase(billType: string, number: string)
    ensures FormatBillId(ToUpper(billType), number) == FormatBillId(billType, number)
  {
    LowerOfUpper(billType);
    UpperIdempotent(billType);
  }

  lemma FormatHouseBill()
    ensures FormatBillId("hr", "1234") == "H.R. 1234"
  {
    assert ToLower("hr") == "hr";
  }
}
