/** The three-step bonus wizard (src/components/pages/CreateBonus.jsx):
    analyse a product, generate bonuses, build a page for the selected one.
    The component's four state variables are the fields of a `Wizard`. */
module CreateBonus {
  import opened JsValues
  import opened ProductService
  import opened BonusService

  const AnalyzeStep := 1
  const GenerateStep := 2
  const BuildStep := 3

  /** The route the wizard leaves for once a page is built. */
  const PagesRoute := "/pages"

  /** `navigate(path, { state: { newPage } })`. */
  datatype Navigation = Navigate(path: string, newPage: Record)

  class Wizard {
    var currentStep: int
    var product: Option<ProductAnalysis>
    var bonuses: seq<Bonus>
    var selectedBonus: Option<Bonus>

    /** The step is one of the three, and on the last step with bonuses on
        offer the selected bonus is one of them. */
    predicate Valid()
      reads this
    {
      AnalyzeStep <= currentStep <= BuildStep
      && (currentStep == BuildStep && |bonuses| > 0 ==> selectedBonus.Some? && selectedBonus.value in bonuses)
    }

    /** The wizard opens on step 1 with nothing analysed or generated. */
    constructor ()
      ensures currentStep == AnalyzeStep && product == None && bonuses == [] && selectedBonus == None
      ensures Valid()
    {
      currentStep := AnalyzeStep;
      product := None;
      bonuses := [];
      selectedBonus := None;
    }

    /** handleProductAnalysis: keep the analysis and go to step 2. */
    method HandleProductAnalysis(analysisResult: ProductAnalysis)
      requires Valid()
      modifies this
      ensures product == Some(analysisResult) && currentStep == GenerateStep
      ensures bonuses == old(bonuses) && selectedBonus == old(selectedBonus)
      ensures Valid()
    {
      product := Some(analysisResult);
      currentStep := GenerateStep;
    }

    /** handleBonusGeneration: keep the list; a non-empty one selects its
        first bonus and moves to step 3, an empty one leaves the step and
        the selection as they were. */
    method HandleBonusGeneration(generatedBonuses: seq<Bonus>)
      requires Valid()
      modifies this
      ensures bonuses == generatedBonuses && product == old(product)
      ensures |generatedBonuses| > 0 ==>
        selectedBonus == Some(generatedBonuses[0]) && currentStep == BuildStep
      ensures |generatedBonuses| == 0 ==>
        selectedBonus == old(selectedBonus) && currentStep == old(currentStep)
      ensures Valid()
    {
      bonuses := generatedBonuses;
      if |generatedBonuses| > 0 {
        selectedBonus := Some(generatedBonuses[0]);
        currentStep := BuildStep;
      }
    }

    /** A click in the list of available bonuses, shown on step 3 only. */
    method SelectBonus(bonus: Bonus)
      requires Valid() && currentStep == BuildStep && bonus in bonuses
      modifies this
      ensures selectedBonus == Some(bonus)
      ensures currentStep == old(currentStep) && product == old(product) && bonuses == old(bonuses)
      ensures Valid()
    {
      selectedBonus := Some(bonus);
    }
  }

  /** handlePageCreated: go to the page list, carrying the new page. */
  function HandlePageCreated(page: Record): (n: Navigation)
    ensures n.path == PagesRoute && n.newPage == page
  {
    Navigate(PagesRoute, page)
  }
}
