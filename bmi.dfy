/**
 * The body-mass ratio computed on "Calculer" and the two tables that name
 * its band: the label and interpretation shown on the result page, and the
 * category string stored next to the ratio. Arithmetic is exact.
 */
module BodyMass {

  /** weight (kg) / (height (m))², with the height given in centimetres. */
  function Bmi(poids: int, taille: int): (r: real)
    requires taille > 0
    ensures poids >= 0 ==> r >= 0.0
    ensures poids < 0 ==> r < 0.0
  {
    var metres := taille as real / 100.0;
    poids as real / (metres * metres)
  }

  /** The four bands of the result page, lightest first. */
  datatype Band = Maigreur | PoidsNormal | Surpoids | Obesite

  function Rank(b: Band): nat {
    match b
    case Maigreur => 0
    case PoidsNormal => 1
    case Surpoids => 2
    case Obesite => 3
  }

  /** The result page's band: half-open thresholds 18.5, 25 and 30. */
  function DisplayBand(bmi: real): Band {
    if bmi < 18.5 then Maigreur
    else if bmi < 25.0 then PoidsNormal
    else if bmi < 30.0 then Surpoids
    else Obesite
  }

  /** The label shown for a band. */
  function BandLabel(b: Band): string {
    match b
    case Maigreur => "Maigreur"
    case PoidsNormal => "Poids normal"
    case Surpoids => "Surpoids"
    case Obesite => "Obésité"
  }

  /** The interpretation line shown under the label. */
  function Interpretation(b: Band): string {
    match b
    case Maigreur => "Vous êtes en dessous de votre poids idéal"
    case PoidsNormal => "Vous avez un poids santé"
    case Surpoids => "Vous êtes au-dessus de votre poids idéal"
    case Obesite => "Consultez un professionnel de santé"
  }

  /** The category word the stored table uses for a band. */
  function CategoryName(b: Band): string {
    match b
    case Maigreur => "Maigreur"
    case PoidsNormal => "Normal"
    case Surpoids => "Surpoids"
    case Obesite => "Obésité"
  }

  /** The stored category: closed ranges 18.5..24.9 and 25.0..29.9, everything else above is obese. */
  function StoredCategory(bmi: real): string {
    if bmi < 18.5 then "Maigreur"
    else if 18.5 <= bmi <= 24.9 then "Normal"
    else if 25.0 <= bmi <= 29.9 then "Surpoids"
    else "Obésité"
  }

  /**
   * What the result page shows for a ratio: each label appears exactly on its
   * half-open interval, and the label and interpretation tell the four bands apart.
   */
  lemma ResultPageText(bmi: real)
    ensures BandLabel(DisplayBand(bmi)) == "Maigreur" <==> bmi < 18.5
    ensures BandLabel(DisplayBand(bmi)) == "Poids normal" <==> 18.5 <= bmi < 25.0
    ensures BandLabel(DisplayBand(bmi)) == "Surpoids" <==> 25.0 <= bmi < 30.0
    ensures BandLabel(DisplayBand(bmi)) == "Obésité" <==> 30.0 <= bmi
    ensures Interpretation(DisplayBand(bmi)) == "Vous êtes en dessous de votre poids idéal" <==> bmi < 18.5
    ensures Interpretation(DisplayBand(bmi)) == "Vous avez un poids santé" <==> 18.5 <= bmi < 25.0
    ensures Interpretation(DisplayBand(bmi)) == "Vous êtes au-dessus de votre poids idéal" <==> 25.0 <= bmi < 30.0
    ensures Interpretation(DisplayBand(bmi)) == "Consultez un professionnel de santé" <==> 30.0 <= bmi
    ensures forall a: Band, b: Band :: BandLabel(a) == BandLabel(b) ==> a == b
    ensures forall a: Band, b: Band :: Interpretation(a) == Interpretation(b) ==> a == b
  {
  }

  /** Every ratio falls in exactly one displayed band, and each band is its half-open interval. */
  lemma DisplayBandIntervals(bmi: real)
    ensures DisplayBand(bmi) == Maigreur <==> bmi < 18.5
    ensures DisplayBand(bmi) == PoidsNormal <==> 18.5 <= bmi < 25.0
    ensures DisplayBand(bmi) == Surpoids <==> 25.0 <= bmi < 30.0
    ensures DisplayBand(bmi) == Obesite <==> 30.0 <= bmi
  {
  }

  /** A larger ratio never lands in a lighter band. */
  lemma DisplayBandMonotone(x: real, y: real)
    requires x <= y
    ensures Rank(DisplayBand(x)) <= Rank(DisplayBand(y))
  {
  }

  /**
   * The stored category names the displayed band except on (24.9, 25) and
   * (29.9, 30), where it says obese while the page shows normal or overweight.
   */
  lemma StoredCategoryVersusDisplay(bmi: real)
    ensures StoredCategory(bmi) == CategoryName(DisplayBand(bmi))
            <==> !(24.9 < bmi < 25.0) && !(29.9 < bmi < 30.0)
    ensures 24.9 < bmi < 25.0 ==> StoredCategory(bmi) == "Obésité" && DisplayBand(bmi) == PoidsNormal
    ensures 29.9 < bmi < 30.0 ==> StoredCategory(bmi) == "Obésité" && DisplayBand(bmi) == Surpoids
  {
  }

  /** The ratio as a fraction of integers: 10000·weight / height². */
  lemma BmiAsFraction(poids: int, taille: int)
    requires taille > 0
    ensures Bmi(poids, taille) == (poids * 10000) as real / (taille * taille) as real
  {
    var t := taille as real;
    assert (t / 100.0) * (t / 100.0) == (t * t) / 10000.0;
    assert (taille * taille) as real == t * t;
  }

  /** The band thresholds as integer cross-multiplications. */
  lemma BmiThresholds(poids: int, taille: int)
    requires taille > 0
    ensures Bmi(poids, taille) < 18.5 <==> 20000 * poids < 37 * (taille * taille)
    ensures Bmi(poids, taille) < 25.0 <==> 400 * poids < taille * taille
    ensures Bmi(poids, taille) < 30.0 <==> 1000 * poids < 3 * (taille * taille)
  {
    BmiAsFraction(poids, taille);
    var n, d := (poids * 10000) as real, (taille * taille) as real;
    assert d > 0.0;
    LessThanScaled(n, d, 18.5);
    LessThanScaled(n, d, 25.0);
    LessThanScaled(n, d, 30.0);
  }

  lemma LessThanScaled(n: real, d: real, c: real)
    requires d > 0.0
    ensures n / d < c <==> n < c * d
  {
  }

  /** Reference values: 70, 50 and 120 kg at 175 cm. */
  lemma BmiExamples()
    ensures DisplayBand(Bmi(70, 175)) == PoidsNormal
    ensures DisplayBand(Bmi(50, 175)) == Maigreur
    ensures DisplayBand(Bmi(120, 175)) == Obesite
    ensures 22.85 < Bmi(70, 175) < 22.86
  {
    BmiAsFraction(70, 175);
    BmiAsFraction(50, 175);
    BmiAsFraction(120, 175);
  }
}
