/** The shared menu list together with the chef screen's add-dish form, as one
    owned store object. */
module Store {
  import opened Menu
  import opened Views

  class MenuStore {
    /** The dishes on the menu, oldest first. */
    var menuItems: seq<MenuItem>
    /** The add-dish form's fields. */
    var dishName: string
    var description: string
    var course: string
    var price: string

    /** The course pickers only offer the three courses and the form resets to
        one of them, so the form and every stored dish hold one of them. */
    ghost predicate Valid()
      reads this
    {
      course in Courses && forall i :: i in menuItems ==> i.course in Courses
    }

    /** The application starts with an empty menu and an empty form. */
    constructor ()
      ensures Valid()
      ensures menuItems == []
      ensures dishName == "" && description == "" && course == DefaultCourse && price == ""
    {
      menuItems := [];
      dishName, description, course, price := "", "", DefaultCourse, "";
    }

    /** Typing in the dish-name field. */
    method SetDishName(text: string)
      requires Valid()
      modifies this
      ensures Valid()
      ensures dishName == text
      ensures menuItems == old(menuItems) && description == old(description)
      ensures course == old(course) && price == old(price)
    {
      dishName := text;
    }

    /** Typing in the description field. */
    method SetDescription(text: string)
      requires Valid()
      modifies this
      ensures Valid()
      ensures description == text
      ensures menuItems == old(menuItems) && dishName == old(dishName)
      ensures course == old(course) && price == old(price)
    {
      description := text;
    }

    /** Picking a course; the picker only offers the three courses. */
    method SetCourse(value: string)
      requires Valid()
      requires value in Courses
      modifies this
      ensures Valid()
      ensures course == value
      ensures menuItems == old(menuItems) && dishName == old(dishName)
      ensures description == old(description) && price == old(price)
    {
      course := value;
    }

    /** Typing in the price field. */
    method SetPrice(text: string)
      requires Valid()
      modifies this
      ensures Valid()
      ensures price == text
      ensures menuItems == old(menuItems) && dishName == old(dishName)
      ensures description == old(description) && course == old(course)
    {
      price := text;
    }

    /** The "Add Menu Item" button. `now` is the clock reading that becomes
        the new dish's id. With an empty name, description or price nothing
        happens; otherwise the form's dish goes to the end of the menu and
        the form is cleared. */
    method AddMenuItem(now: int)
      requires Valid()
      modifies this
      ensures Valid()
      ensures old(dishName) == "" || old(description) == "" || old(price) == "" ==>
        menuItems == old(menuItems) && dishName == old(dishName) && description == old(description)
        && course == old(course) && price == old(price)
      ensures old(dishName) != "" && old(description) != "" && old(price) != "" ==>
        menuItems == old(menuItems) + [MenuItem(now, old(dishName), old(description), old(course), old(price))]
        && dishName == "" && description == "" && price == "" && course == DefaultCourse
    {
      if dishName == "" || description == "" || price == "" {
        return;
      }
      var newItem := MenuItem(now, dishName, description, course, price);
      menuItems := menuItems + [newItem];
      dishName := "";
      description := "";
      price := "";
      course := DefaultCourse;
    }

    /** The trash button of a dish: every dish carrying `id` leaves the menu. */
    method RemoveMenuItem(id: int)
      requires Valid()
      modifies this
      ensures Valid()
      ensures menuItems == WithoutId(old(menuItems), id)
      ensures !HasId(menuItems, id) && |menuItems| <= |old(menuItems)|
      ensures !HasId(old(menuItems), id) ==> menuItems == old(menuItems)
      ensures dishName == old(dishName) && description == old(description)
      ensures course == old(course) && price == old(price)
    {
      WithoutIdChangesIff(menuItems, id);
      menuItems := WithoutId(menuItems, id);
    }

    /** The "Total Menu Items" / "Current Items" figure: the number of dishes,
        which is also the sum of the three courses' dish counts. */
    method Count() returns (n: nat)
      requires Valid()
      ensures n == |menuItems|
      ensures n == |ItemsOfCourse(menuItems, "Starters")| + |ItemsOfCourse(menuItems, "Mains")|
                   + |ItemsOfCourse(menuItems, "Dessert")|
    {
      CourseCountsSumToTotal(menuItems);
      n := |menuItems|;
    }
  }

  /** A chef session: add a soup at clock reading t1 and a steak at t2, then
      remove the soup. The menu ends with the steak alone. */
  method SoupThenSteak(t1: int, t2: int) returns (items: seq<MenuItem>)
    requires t1 != t2
    ensures items == [MenuItem(t2, "Steak", "Grilled ribeye", "Mains", "120")]
  {
    var store := new MenuStore();
    store.SetDishName("Soup");
    store.SetDescription("Tomato soup");
    store.SetPrice("35");
    store.AddMenuItem(t1);
    var soup := MenuItem(t1, "Soup", "Tomato soup", "Starters", "35");
    assert store.menuItems == [soup];
    store.SetDishName("Steak");
    store.SetDescription("Grilled ribeye");
    store.SetCourse("Mains");
    store.SetPrice("120");
    store.AddMenuItem(t2);
    var steak := MenuItem(t2, "Steak", "Grilled ribeye", "Mains", "120");
    assert store.menuItems == [soup, steak];
    store.RemoveMenuItem(t1);
    RemoveFirstOfTwo(soup, steak);
    items := store.menuItems;
  }
}
