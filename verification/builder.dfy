/** Meal builder: the builder owns one `Meal` whose three parts start `null`
    and are set by the matching `add` call. */
module MealBuilder {
  import opened Outcomes

  datatype Meal = Meal(burger: Option<string>, fries: Option<string>, drink: Option<string>)

  datatype Builder = Builder(meal: Meal)

  function NewMeal(): (m: Meal)
    ensures m.burger.None? && m.fries.None? && m.drink.None?
  {
    Meal(None, None, None)
  }

  function NewBuilder(): (b: Builder)
    ensures b.meal == NewMeal()
  {
    Builder(NewMeal())
  }

  function AddBurger(b: Builder, burger: string): (r: Builder)
    ensures r.meal.burger == Some(burger)
    ensures r.meal.fries == b.meal.fries && r.meal.drink == b.meal.drink
  {
    Builder(b.meal.(burger := Some(burger)))
  }

  function AddFries(b: Builder, fries: string): (r: Builder)
    ensures r.meal.fries == Some(fries)
    ensures r.meal.burger == b.meal.burger && r.meal.drink == b.meal.drink
  {
    Builder(b.meal.(fries := Some(fries)))
  }

  function AddDrink(b: Builder, drink: string): (r: Builder)
    ensures r.meal.drink == Some(drink)
    ensures r.meal.burger == b.meal.burger && r.meal.fries == b.meal.fries
  {
    Builder(b.meal.(drink := Some(drink)))
  }

  /** `getMeal`: the builder's own meal. */
  function GetMeal(b: Builder): (m: Meal)
    ensures m == b.meal
  {
    b.meal
  }

  /** A repeated `add` overwrites: only the last value counts. */
  lemma LastAddWins(b: Builder, x: string, y: string)
    ensures AddBurger(AddBurger(b, x), y) == AddBurger(b, y)
    ensures AddFries(AddFries(b, x), y) == AddFries(b, y)
    ensures AddDrink(AddDrink(b, x), y) == AddDrink(b, y)
  {
  }

  /** The parts are independent: the add calls commute. */
  lemma AddsCommute(b: Builder, burger: string, fries: string, drink: string)
    ensures AddFries(AddBurger(b, burger), fries) == AddBurger(AddFries(b, fries), burger)
    ensures AddDrink(AddBurger(b, burger), drink) == AddBurger(AddDrink(b, drink), burger)
    ensures AddDrink(AddFries(b, fries), drink) == AddFries(AddDrink(b, drink), fries)
  {
  }

  /** The client run: meal1 has no drink; meal2 is complete. */
  lemma ClientRun()
    ensures GetMeal(AddFries(AddBurger(NewBuilder(), "Cheeseburger"), "Curly Fries")) ==
      Meal(Some("Cheeseburger"), Some("Curly Fries"), None)
    ensures GetMeal(AddDrink(AddFries(AddBurger(NewBuilder(), "Chicken Burger"), "Regular Fries"), "Soda")) ==
      Meal(Some("Chicken Burger"), Some("Regular Fries"), Some("Soda"))
  {
  }
}
