/**
 * The one-screen BMI form. `FormRules` gives the screen's state variables as
 * a value and each UI event as a function from one state to the next (name
 * and first-name edits, the date picker callback, the weight buttons, the
 * height edit, "Calculer IMC" and "Nouveau calcul"), with the consistency
 * every event keeps. `Form` is the screen itself: a class whose fields are
 * the state variables and whose methods are the events.
 */
module FormRules {
  import opened KotlinText
  import opened Dates
  import opened Validation
  import opened BodyMass
  import opened Weight

  const FutureDateMessage: string := "Date impossible dans le futur"
  const NomRequiredMessage: string := "Nom obligatoire"
  const PrenomRequiredMessage: string := "Prénom obligatoire"
  const DateRequiredMessage: string := "Date obligatoire"
  const HeightRangeMessage: string := "Taille invalide (50-250 cm)"

  /** The value of every state variable of the screen. */
  datatype FormState = FormState(
    nom: string, prenom: string, dateNaissance: string, age: string,
    poids: int, taille: string,
    showResult: bool, imcResult: real, categorieResult: string,
    errorNom: string, errorPrenom: string, errorDate: string, errorTaille: string)

  /** The state the screen opens with. */
  const Initial: FormState :=
    FormState("", "", "", "", InitialPoids, "", false, 0.0, "", "", "", "", "")

  /** The date the picker callback builds from its 0-based month: `LocalDate.of(year, month + 1, dayOfMonth)`. */
  function PickedDate(year: int, month: int, dayOfMonth: int): Date {
    Date(year, month + 1, dayOfMonth)
  }

  // ---------------------------------------------------------------------------
  // The events
  // ---------------------------------------------------------------------------

  /** The "Nom" field changed: the text as typed and its name error. */
  function OnEditNom(s: FormState, text: string): FormState {
    s.(nom := text, errorNom := NameError(text))
  }

  /** The "Prénom" field changed: the same rule as for "Nom". */
  function OnEditPrenom(s: FormState, text: string): FormState {
    s.(prenom := text, errorPrenom := NameError(text))
  }

  /**
   * The date picker's callback: a date after `today` only sets the date
   * error; any other date is stored as dd/MM/yyyy with the age computed
   * back from that text, and the date error is cleared.
   */
  function OnPickDate(s: FormState, selected: Date, today: Date): FormState
    requires ValidDate(selected) && selected.year >= 1
  {
    if IsAfter(selected, today) then s.(errorDate := FutureDateMessage)
    else
      var text := FormatDate(selected);
      s.(dateNaissance := text, age := CalculerAge(text, today), errorDate := "")
  }

  /** "-". */
  function OnMinus(s: FormState): FormState {
    s.(poids := Decrement(s.poids))
  }

  /** "+", with the increment stopping at `Int.MAX_VALUE`. */
  function OnPlus(s: FormState): FormState {
    s.(poids := Increment(s.poids))
  }

  /** The height field changed: only the digits are kept, and checked. */
  function OnEditTaille(s: FormState, text: string): FormState {
    var filtered := FilterDigits(text);
    s.(taille := filtered, errorTaille := HeightError(filtered))
  }

  /** The condition "Calculer IMC" checks before computing. */
  predicate Submittable(s: FormState) {
    !IsBlank(s.nom) && !IsBlank(s.prenom) && !IsBlank(s.dateNaissance)
    && HeightAccepted(s.taille)
    && s.errorNom == "" && s.errorPrenom == "" && s.errorDate == "" && s.errorTaille == ""
  }

  /**
   * "Calculer IMC": on a submittable form, the ratio, its stored category
   * and the result page; otherwise the blank fields and an unaccepted height
   * get their "required" messages and every other error stays as it was.
   */
  function OnCalculer(s: FormState): FormState {
    if Submittable(s) then
      var imc := Bmi(s.poids, ToIntOrNull(s.taille).value);
      s.(imcResult := imc, categorieResult := StoredCategory(imc), showResult := true)
    else
      s.(errorNom := if IsBlank(s.nom) then NomRequiredMessage else s.errorNom,
         errorPrenom := if IsBlank(s.prenom) then PrenomRequiredMessage else s.errorPrenom,
         errorDate := if IsBlank(s.dateNaissance) then DateRequiredMessage else s.errorDate,
         errorTaille := if HeightAccepted(s.taille) then s.errorTaille else HeightRangeMessage)
  }

  /** "Nouveau calcul": back to the form. */
  function OnNouveauCalcul(s: FormState): FormState {
    s.(showResult := false)
  }

  // ---------------------------------------------------------------------------
  // What every event keeps
  // ---------------------------------------------------------------------------

  /**
   * The weight stays in 0..Int.MAX_VALUE, the height text holds digits only,
   * no age is shown without a date, an empty error stands for an accepted
   * value (or a field never filled), and the result page only ever shows the
   * ratio and category of a submittable form.
   */
  ghost predicate Consistent(s: FormState) {
    && 0 <= s.poids <= IntMax
    && AllDigits(s.taille)
    && (s.dateNaissance == "" ==> s.age == "")
    && (s.errorNom == "" && s.nom != "" ==> NameAccepted(s.nom))
    && (s.errorPrenom == "" && s.prenom != "" ==> NameAccepted(s.prenom))
    && (s.errorTaille == "" && s.taille != "" ==> HeightAccepted(s.taille))
    && (s.showResult ==>
          && Submittable(s)
          && s.imcResult == Bmi(s.poids, ToIntOrNull(s.taille).value)
          && s.categorieResult == StoredCategory(s.imcResult))
  }

  lemma InitialConsistent()
    ensures Consistent(Initial)
  {
  }

  lemma EditNomKeepsConsistent(s: FormState, text: string)
    requires Consistent(s) && !s.showResult
    ensures Consistent(OnEditNom(s, text))
  {
    NameErrorCases(text);
  }

  lemma EditPrenomKeepsConsistent(s: FormState, text: string)
    requires Consistent(s) && !s.showResult
    ensures Consistent(OnEditPrenom(s, text))
  {
    NameErrorCases(text);
  }

  lemma PickDateKeepsConsistent(s: FormState, selected: Date, today: Date)
    requires Consistent(s) && !s.showResult
    requires ValidDate(selected) && selected.year >= 1
    ensures Consistent(OnPickDate(s, selected, today))
  {
  }

  lemma ButtonsKeepConsistent(s: FormState)
    requires Consistent(s) && !s.showResult
    ensures Consistent(OnMinus(s)) && Consistent(OnPlus(s))
  {
  }

  lemma EditTailleKeepsConsistent(s: FormState, text: string)
    requires Consistent(s) && !s.showResult
    ensures Consistent(OnEditTaille(s, text))
  {
    HeightErrorCases(text);
  }

  lemma CalculerKeepsConsistent(s: FormState)
    requires Consistent(s) && !s.showResult
    ensures Consistent(OnCalculer(s))
  {
  }

  lemma NouveauCalculKeepsConsistent(s: FormState)
    requires Consistent(s)
    ensures Consistent(OnNouveauCalcul(s))
  {
  }

  // ---------------------------------------------------------------------------
  // Properties of the events
  // ---------------------------------------------------------------------------

  /**
   * The result page opens exactly for a submittable form, and then both
   * names pass the edit rule, a date has been picked and the height is in
   * 50..250; otherwise the form stays, showing at least one error.
   */
  lemma CalculerOutcome(s: FormState)
    requires Consistent(s) && !s.showResult
    ensures OnCalculer(s).showResult <==> Submittable(s)
    ensures Submittable(s) ==>
              && NameAccepted(s.nom) && NameAccepted(s.prenom) && s.dateNaissance != ""
              && MinHeight <= ToIntOrNull(s.taille).value <= MaxHeight
    ensures !Submittable(s) ==>
              var r := OnCalculer(s);
              r.errorNom != "" || r.errorPrenom != "" || r.errorDate != "" || r.errorTaille != ""
  {
  }

  /** A refused "Calculer IMC" pressed again changes nothing more. */
  lemma RefusedCalculerIdempotent(s: FormState)
    requires !Submittable(s)
    ensures !Submittable(OnCalculer(s))
    ensures OnCalculer(OnCalculer(s)) == OnCalculer(s)
  {
  }

  /** "Nouveau calcul" then "Calculer IMC" with nothing edited shows the same result again. */
  lemma RecalculateSameResult(s: FormState)
    requires Submittable(s)
    ensures OnCalculer(OnNouveauCalcul(OnCalculer(s))) == OnCalculer(s)
  {
  }

  /** A blank name passes the edit rule when long enough, yet the submit gate refuses it and says so. */
  lemma BlankNameRefusedAtSubmit(s: FormState)
    requires !s.showResult
    ensures var r := OnCalculer(OnEditNom(s, "   "));
            r.errorNom == NomRequiredMessage && !r.showResult
  {
    BlankNamePassesEditCheck();
  }

  /** Typing the digits alone or the text they were filtered from leaves the same state. */
  lemma EditTailleIgnoresNonDigits(s: FormState, text: string)
    ensures OnEditTaille(s, FilterDigits(text)) == OnEditTaille(s, text)
    ensures OnEditTaille(s, text).errorTaille == "" <==> HeightAccepted(OnEditTaille(s, text).taille)
  {
    FilterDigitsIdempotent(text);
    HeightErrorCases(text);
  }

  /**
   * A future date only sets the date error, which blocks the submit. Any other date of years 1..9999 is stored as a text that reads
   * back as that date, with its whole-year age; past year 9999 the text no
   * longer parses and the age is empty.
   */
  lemma PickDateOutcome(s: FormState, selected: Date, today: Date)
    requires ValidDate(selected) && selected.year >= 1 && ValidDate(today)
    ensures IsAfter(selected, today) ==>
              var r := OnPickDate(s, selected, today);
              r == s.(errorDate := FutureDateMessage) && !Submittable(r)
    ensures !IsAfter(selected, today) && selected.year <= 9999 ==>
              var r := OnPickDate(s, selected, today);
              && ParseDate(r.dateNaissance) == Some(selected)
              && r.age == NatToString(AgeInYears(selected, today))
              && r.errorDate == ""
    ensures !IsAfter(selected, today) && selected.year > 9999 ==>
              OnPickDate(s, selected, today).age == ""
  {
    if !IsAfter(selected, today) {
      if selected.year <= 9999 {
        ParseFormatRoundTrip(selected);
        AgeOfFormattedDate(selected, today);
      } else {
        FormatPastYear9999Unparseable(selected);
      }
    }
  }
}

module Form {
  import opened KotlinText
  import opened Dates
  import opened Validation
  import opened BodyMass
  import opened Weight
  import opened FormRules

  class CalculImcForm {
    var nom: string
    var prenom: string
    var dateNaissance: string
    var age: string
    var poids: int
    var taille: string
    var showResult: bool
    var imcResult: real
    var categorieResult: string
    var errorNom: string
    var errorPrenom: string
    var errorDate: string
    var errorTaille: string

    function State(): FormState
      reads this
    {
      FormState(nom, prenom, dateNaissance, age, poids, taille, showResult, imcResult,
                categorieResult, errorNom, errorPrenom, errorDate, errorTaille)
    }

    ghost predicate Valid()
      reads this
    {
      Consistent(State())
    }

    /** The initial values of the state variables. */
    constructor ()
      ensures State() == Initial
      ensures Valid()
    {
      nom, prenom, dateNaissance, age := "", "", "", "";
      poids, taille := InitialPoids, "";
      showResult, imcResult, categorieResult := false, 0.0, "";
      errorNom, errorPrenom, errorDate, errorTaille := "", "", "", "";
      InitialConsistent();
    }

    method EditNom(text: string)
      requires Valid() && !showResult
      modifies this
      ensures State() == OnEditNom(old(State()), text)
      ensures Valid()
    {
      EditNomKeepsConsistent(State(), text);
      nom := text;
      errorNom := NameError(text);
    }

    method EditPrenom(text: string)
      requires Valid() && !showResult
      modifies this
      ensures State() == OnEditPrenom(old(State()), text)
      ensures Valid()
    {
      EditPrenomKeepsConsistent(State(), text);
      prenom := text;
      errorPrenom := NameError(text);
    }

    /** The picker's callback, with a 0-based month and `today` for `LocalDate.now()`. */
    method PickDate(year: int, month: int, dayOfMonth: int, today: Date)
      requires Valid() && !showResult
      requires ValidDate(PickedDate(year, month, dayOfMonth)) && year >= 1
      modifies this
      ensures State() == OnPickDate(old(State()), PickedDate(year, month, dayOfMonth), today)
      ensures Valid()
    {
      PickDateKeepsConsistent(State(), PickedDate(year, month, dayOfMonth), today);
      var selected := PickedDate(year, month, dayOfMonth);
      if IsAfter(selected, today) {
        errorDate := FutureDateMessage;
      } else {
        var text := FormatDate(selected);
        StoreDate(text, CalculerAge(text, today));
      }
    }

    /** The picker's accepted branch: the date text and its age stored, the date error cleared. */
    method StoreDate(text: string, ageText: string)
      requires Valid() && !showResult
      requires text == "" ==> ageText == ""
      modifies this
      ensures State() == old(State()).(dateNaissance := text, age := ageText, errorDate := "")
      ensures Valid()
    {
      dateNaissance, age, errorDate := text, ageText, "";
    }

    /** "-": one kilogram less, never below 0. */
    method DecrementPoids()
      requires Valid() && !showResult
      modifies this
      ensures State() == OnMinus(old(State()))
      ensures Valid()
    {
      ButtonsKeepConsistent(State());
      if poids > 0 {
        poids := poids - 1;
      }
    }

    /** "+": one kilogram more, stopping at `Int.MAX_VALUE`. */
    method IncrementPoids()
      requires Valid() && !showResult
      modifies this
      ensures State() == OnPlus(old(State()))
      ensures Valid()
    {
      ButtonsKeepConsistent(State());
      if poids < IntMax {
        poids := poids + 1;
      }
    }

    method EditTaille(text: string)
      requires Valid() && !showResult
      modifies this
      ensures State() == OnEditTaille(old(State()), text)
      ensures Valid()
    {
      EditTailleKeepsConsistent(State(), text);
      var filtered := FilterDigits(text);
      taille := filtered;
      errorTaille := HeightError(filtered);
    }

    method Calculer()
      requires Valid() && !showResult
      modifies this
      ensures State() == OnCalculer(old(State()))
      ensures Valid()
    {
      ghost var before := State();
      CalculerKeepsConsistent(before);
      if Submittable(State()) {
        var imc := Bmi(poids, ToIntOrNull(taille).value);
        imcResult := imc;
        categorieResult := StoredCategory(imc);
        showResult := true;
      } else {
        if IsBlank(nom) {
          errorNom := NomRequiredMessage;
        }
        if IsBlank(prenom) {
          errorPrenom := PrenomRequiredMessage;
        }
        if IsBlank(dateNaissance) {
          errorDate := DateRequiredMessage;
        }
        if !HeightAccepted(taille) {
          errorTaille := HeightRangeMessage;
        }
      }
    }

    method NouveauCalcul()
      requires Valid() && showResult
      modifies this
      ensures State() == OnNouveauCalcul(old(State()))
      ensures Valid()
    {
      NouveauCalculKeepsConsistent(State());
      showResult := false;
    }
  }
}
