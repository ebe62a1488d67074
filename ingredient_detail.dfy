/** `IngredientPage`'s own state: whether the nutrition sheet is up. */
module IngredientDetail {

  class IngredientPage {
    var showNutrition: bool

    constructor ()
      ensures !showNutrition
    {
      showNutrition := false;
    }

    /** Tapping the ingredient image opens the nutrition sheet. */
    method TapImage()
      modifies this
      ensures showNutrition
    {
      showNutrition := true;
    }

    /** Tapping the invisible layer laid over the page while the sheet is up closes it. */
    method TapOutsideSheet()
      modifies this
      ensures !showNutrition
    {
      showNutrition := false;
    }
  }
}
