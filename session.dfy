/**
 * The predictor screen's session: the form fields, the `form`/`result` step,
 * the loading flag, the last result, and the `predictor_form` entry of the
 * browser's local storage that mirrors three of the fields.
 *
 * Both predictor components share this state and these transitions; they
 * differ only in what `handlePredict` does with the selected listing
 * (`Submit` for the `.jsx` component, `SubmitWithoutName` for the `.tsx` one).
 * Parsing of the text fields is not modelled: the submit methods receive the
 * already-parsed ratio and account count.
 */
module Session {
  import opened Engine
  import opened Listings

  datatype Step = FormStep | ResultStep

  /** The three persisted fields, as the component holds them. */
  datatype Persisted = Persisted(accounts: string, kitta: string, isFirstTime: bool)

  /** The parsed `predictor_form` entry: a field missing from the JSON is `None`. */
  datatype Saved = Saved(accounts: Option<string>, kitta: Option<string>, isFirstTime: Option<bool>)

  /** What the result view shows. `probability` is the rounded percentage. */
  datatype PredictionResult = PredictionResult(
    prediction: Prediction,
    probability: real,
    verdict: string,
    color: string,
    lang: Language,
    accounts: string,
    companyName: Option<string>)

  /** `JSON.stringify({ accounts, kitta, isFirstTime })`, as a value. */
  function Save(p: Persisted): (r: Saved)
    ensures r.accounts.Some? && r.kitta.Some? && r.isFirstTime.Some?
    ensures r.isFirstTime.value == p.isFirstTime
  {
    Saved(Some(p.accounts), Some(p.kitta), Some(p.isFirstTime))
  }

  /** `s || d` on an optional string: a missing or empty string gives `d`. */
  function OrDefault(s: Option<string>, d: string): (r: string)
    ensures r == d || (s.Some? && r == s.value)
    ensures r == d <==> s.None? || s.value == "" || s.value == d
  {
    if s.None? || s.value == "" then d else s.value
  }

  /** The values the form starts with: the saved entry with its defaults, or the defaults. */
  function Restore(saved: Option<Saved>): (r: Persisted)
    ensures r.accounts != "" && r.kitta != ""
    ensures saved.None? ==> r == Persisted("1", "10", false)
    ensures saved.Some? && saved.value.accounts.None? ==> r.accounts == "1"
    ensures saved.Some? && saved.value.kitta.None? ==> r.kitta == "10"
    ensures saved.Some? && saved.value.isFirstTime.None? ==> !r.isFirstTime
  {
    match saved
    case None => Persisted("1", "10", false)
    case Some(s) =>
      Persisted(OrDefault(s.accounts, "1"), OrDefault(s.kitta, "10"),
                s.isFirstTime.Some? && s.isFirstTime.value)
  }

  /** A saved entry is restored exactly when neither text field was empty. */
  lemma RestoreAfterSave(p: Persisted)
    ensures Restore(Some(Save(p))) == p <==> p.accounts != "" && p.kitta != ""
  {
  }

  /** The result `handlePredict` stores for a ratio and an account count. */
  function ResultFor(ratio: real, n: nat, lang: Language, accounts: string, name: Option<string>): (r: PredictionResult)
    requires ratio > 0.0
    ensures Consistent(r)
    ensures r.prediction == Compute(ratio, n)
    ensures r.lang == lang && r.accounts == accounts && r.companyName == name
  {
    var pr := Compute(ratio, n);
    PredictionResult(pr, Round2(pr.total), Verdict(pr.tier, lang), Color(pr.tier), lang, accounts, name)
  }

  /** The displayed probability is the rounded total, and the tier the one of the unrounded total. */
  ghost predicate Consistent(r: PredictionResult)
  {
    && 0.0 <= r.prediction.total <= 100.0
    && r.probability == Round2(r.prediction.total)
    && r.prediction.tier == TierOf(r.prediction.total)
    && r.verdict == Verdict(r.prediction.tier, r.lang)
    && r.color == Color(r.prediction.tier)
  }

  /** The company name of a listing in a language. */
  function DisplayName(ipo: Ipo, lang: Language): string
  {
    if lang == EN then ipo.name else ipo.nameNP
  }

  class PredictorSession {
    var step: Step
    var loading: bool
    var selectedIpoId: string
    var oversubscription: string
    var accounts: string
    var isFirstTime: bool
    var kitta: string
    var result: Option<PredictionResult>
    /** The `predictor_form` entry of local storage. */
    var stored: Option<Saved>

    ghost predicate Valid()
      reads this
    {
      && stored == Some(Save(Persisted(accounts, kitta, isFirstTime)))
      && (step == ResultStep ==> result.Some?)
      && (result.Some? ==> Consistent(result.value))
    }

    function Inputs(): Persisted
      reads this
    {
      Persisted(accounts, kitta, isFirstTime)
    }

    /**
     * The predict button can be pressed: it is shown only on the form step,
     * and it is enabled when a listing is selected, the ratio text is
     * non-empty and nothing is loading.
     */
    predicate CanSubmit()
      reads this
    {
      step == FormStep && selectedIpoId != "" && oversubscription != "" && !loading
    }

    /** The component mounts and loads whatever `predictor_form` holds. */
    constructor (saved: Option<Saved>)
      ensures Valid()
      ensures step == FormStep && !loading && result.None?
      ensures selectedIpoId == "" && oversubscription == ""
      ensures Inputs() == Restore(saved)
    {
      var p := Restore(saved);
      step, loading := FormStep, false;
      selectedIpoId, oversubscription := "", "";
      accounts, kitta, isFirstTime := p.accounts, p.kitta, p.isFirstTime;
      result := None;
      stored := Some(Save(p));
    }

    method SelectListing(id: string)
      requires Valid()
      modifies this
      ensures Valid()
      ensures selectedIpoId == id
      ensures oversubscription == old(oversubscription) && Inputs() == old(Inputs())
      ensures step == old(step) && loading == old(loading) && result == old(result)
      ensures stored == old(stored)
    {
      selectedIpoId := id;
    }

    method SetOversubscription(text: string)
      requires Valid()
      modifies this
      ensures Valid()
      ensures oversubscription == text
      ensures selectedIpoId == old(selectedIpoId) && Inputs() == old(Inputs())
      ensures step == old(step) && loading == old(loading) && result == old(result)
      ensures stored == old(stored)
    {
      oversubscription := text;
    }

    method SetAccounts(text: string)
      requires Valid()
      modifies this
      ensures Valid()
      ensures Inputs() == old(Inputs()).(accounts := text)
      ensures stored == Some(Save(Inputs()))
      ensures selectedIpoId == old(selectedIpoId) && oversubscription == old(oversubscription)
      ensures step == old(step) && loading == old(loading) && result == old(result)
    {
      accounts := text;
      stored := Some(Save(Inputs()));
    }

    method SetKitta(text: string)
      requires Valid()
      modifies this
      ensures Valid()
      ensures Inputs() == old(Inputs()).(kitta := text)
      ensures stored == Some(Save(Inputs()))
      ensures selectedIpoId == old(selectedIpoId) && oversubscription == old(oversubscription)
      ensures step == old(step) && loading == old(loading) && result == old(result)
    {
      kitta := text;
      stored := Some(Save(Inputs()));
    }

    method ToggleFirstTime()
      requires Valid()
      modifies this
      ensures Valid()
      ensures Inputs() == old(Inputs()).(isFirstTime := !old(isFirstTime))
      ensures stored == Some(Save(Inputs()))
      ensures selectedIpoId == old(selectedIpoId) && oversubscription == old(oversubscription)
      ensures step == old(step) && loading == old(loading) && result == old(result)
    {
      isFirstTime := !isFirstTime;
      stored := Some(Save(Inputs()));
    }

    /**
     * `handlePredict` of the `.jsx` component, with its delayed callback run
     * to completion. `ratio` and `n` are the parsed oversubscription and
     * account fields. When the selected id names no listing, reading the
     * listing's name throws inside the callback: the loading flag stays set
     * and nothing else happens.
     */
    method Submit(ratio: real, n: nat, lang: Language, ipos: seq<Ipo>)
      requires Valid()
      requires ratio > 0.0
      modifies this
      ensures Valid()
      ensures selectedIpoId == old(selectedIpoId) && oversubscription == old(oversubscription)
      ensures Inputs() == old(Inputs()) && stored == old(stored)
      ensures !old(CanSubmit()) ==>
        step == old(step) && loading == old(loading) && result == old(result)
      ensures old(CanSubmit()) && Find(ipos, old(selectedIpoId)).None? ==>
        step == old(step) && loading && result == old(result)
      ensures old(CanSubmit()) && Find(ipos, old(selectedIpoId)).Some? ==>
        && step == ResultStep && !loading
        && result == Some(ResultFor(ratio, n, lang, old(accounts),
                                    Some(DisplayName(Find(ipos, old(selectedIpoId)).value, lang))))
    {
      if !CanSubmit() {
        return;
      }
      loading := true;
      var listing := Find(ipos, selectedIpoId);
      if listing.None? {
        return;
      }
      result := Some(ResultFor(ratio, n, lang, accounts, Some(DisplayName(listing.value, lang))));
      loading := false;
      step := ResultStep;
    }

    /** `handlePredict` of the `.tsx` component, whose result carries no company name. */
    method SubmitWithoutName(ratio: real, n: nat, lang: Language)
      requires Valid()
      requires ratio > 0.0
      modifies this
      ensures Valid()
      ensures selectedIpoId == old(selectedIpoId) && oversubscription == old(oversubscription)
      ensures Inputs() == old(Inputs()) && stored == old(stored)
      ensures !old(CanSubmit()) ==>
        step == old(step) && loading == old(loading) && result == old(result)
      ensures old(CanSubmit()) ==>
        step == ResultStep && !loading && result == Some(ResultFor(ratio, n, lang, old(accounts), None))
    {
      if !CanSubmit() {
        return;
      }
      loading := true;
      result := Some(ResultFor(ratio, n, lang, accounts, None));
      loading := false;
      step := ResultStep;
    }

    /** The back button: the form comes back with every input as it was; the last result is kept. */
    method Back()
      requires Valid()
      modifies this
      ensures Valid()
      ensures step == FormStep
      ensures selectedIpoId == old(selectedIpoId) && oversubscription == old(oversubscription)
      ensures Inputs() == old(Inputs()) && stored == old(stored)
      ensures loading == old(loading) && result == old(result)
    {
      step := FormStep;
    }

    /**
     * Confetti is shown when the result view displays more than 70 percent;
     * the verdict is then Good or Extremely High.
     */
    function ShowsConfetti(): (b: bool)
      reads this
      requires Valid()
      ensures b ==> step == ResultStep && result.Some? && Rank(result.value.prediction.tier) >= Rank(Good)
    {
      step == ResultStep && result.Some? && result.value.probability > 70.0
    }
  }
}
