/** The monthly budget planner (src/hooks/useMonthlyBudgetPlanner.ts): a total budget, a list of
    user-defined categories updated in place, the last rejection message, and the derived
    "Unallocated" row. */
module MonthlyBudgetPlanner {
  import opened Wrappers

  /** `BudgetCategory`. */
  datatype BudgetCategory = BudgetCategory(id: string, name: string, amount: real, color: string)

  const DefaultBudget: real := 0.0

  const UnallocatedId: string := "unallocated"
  const UnallocatedName: string := "Unallocated"
  const UnallocatedColor: string := "#232323"

  const AmountExceedsError: string := "Amount exceeds unallocated budget"

  /** The message of a rejected duplicate name. */
  function DuplicateNameError(name: string): string
  {
    "Category with name '" + name + "' already exists"
  }

  /** The allocated amount: the categories' amounts folded from the left, starting at 0. */
  function Allocated(categories: seq<BudgetCategory>): real
  {
    if |categories| == 0 then 0.0
    else Allocated(categories[..|categories| - 1]) + categories[|categories| - 1].amount
  }

  lemma AllocatedAppend(categories: seq<BudgetCategory>, c: BudgetCategory)
    ensures Allocated(categories + [c]) == Allocated(categories) + c.amount
  {
    assert (categories + [c])[..|categories|] == categories;
  }

  /** The allocated amount of two lists one after the other is the sum of theirs. */
  lemma {:induction false} AllocatedConcat(a: seq<BudgetCategory>, b: seq<BudgetCategory>)
    ensures Allocated(a + b) == Allocated(a) + Allocated(b)
    decreases |b|
  {
    if |b| == 0 {
      assert a + b == a;
    } else {
      var front := b[..|b| - 1];
      var last := b[|b| - 1];
      assert b == front + [last];
      assert a + b == (a + front) + [last];
      AllocatedConcat(a, front);
      AllocatedAppend(a + front, last);
      AllocatedAppend(front, last);
    }
  }

  lemma AllocatedCons(c: BudgetCategory, rest: seq<BudgetCategory>)
    ensures Allocated([c] + rest) == c.amount + Allocated(rest)
  {
    AllocatedConcat([c], rest);
    assert Allocated([c]) == Allocated([]) + c.amount by {
      assert [c][..0] == [];
    }
  }

  ghost predicate NonNegativeAmounts(categories: seq<BudgetCategory>)
  {
    forall i :: 0 <= i < |categories| ==> categories[i].amount >= 0.0
  }

  /** No two categories share a name. */
  ghost predicate UniqueNames(categories: seq<BudgetCategory>)
  {
    forall i, j :: 0 <= i < j < |categories| ==> categories[i].name != categories[j].name
  }

  /** Whether `find` by name succeeds: some category carries the name. */
  function ContainsName(categories: seq<BudgetCategory>, name: string): (found: bool)
    ensures found <==> exists i :: 0 <= i < |categories| && categories[i].name == name
  {
    if |categories| == 0 then false
    else if categories[0].name == name then true
    else
      var found := ContainsName(categories[1..], name);
      assert found <==> exists i :: 1 <= i < |categories| && categories[i].name == name by {
        if found {
          var k :| 0 <= k < |categories[1..]| && categories[1..][k].name == name;
          assert categories[k + 1].name == name;
        }
      }
      found
  }

  /** `filter(category => category.name !== name)`. */
  function RemoveByName(categories: seq<BudgetCategory>, name: string): (rest: seq<BudgetCategory>)
    ensures |rest| <= |categories|
    ensures forall i :: 0 <= i < |rest| ==> rest[i].name != name
    ensures forall c :: c in rest <==> c in categories && c.name != name
  {
    if |categories| == 0 then []
    else
      var tail := RemoveByName(categories[1..], name);
      assert forall c :: c in categories <==> c == categories[0] || c in categories[1..];
      if categories[0].name == name then tail else [categories[0]] + tail
  }

  /** Removing a name that no category has changes nothing. */
  lemma {:induction false} RemoveAbsentName(categories: seq<BudgetCategory>, name: string)
    requires !ContainsName(categories, name)
    ensures RemoveByName(categories, name) == categories
  {
    if |categories| > 0 {
      assert !ContainsName(categories[1..], name) by {
        forall k | 0 <= k < |categories[1..]|
          ensures categories[1..][k].name != name
        {
          assert categories[1..][k] == categories[k + 1];
        }
      }
      RemoveAbsentName(categories[1..], name);
      assert [categories[0]] + categories[1..] == categories;
    }
  }

  /** Filtering distributes over concatenation, so the kept categories stay in their order. */
  lemma {:induction false} RemoveDistributes(a: seq<BudgetCategory>, b: seq<BudgetCategory>, name: string)
    ensures RemoveByName(a + b, name) == RemoveByName(a, name) + RemoveByName(b, name)
    decreases |a|
  {
    if |a| == 0 {
      assert a + b == b;
    } else {
      assert (a + b)[1..] == a[1..] + b;
      assert (a + b)[0] == a[0];
      RemoveDistributes(a[1..], b, name);
    }
  }

  /** Filtering keeps names unique. */
  lemma {:induction false} RemoveKeepsUniqueNames(categories: seq<BudgetCategory>, name: string)
    requires UniqueNames(categories)
    ensures UniqueNames(RemoveByName(categories, name))
  {
    if |categories| > 0 {
      var tail := categories[1..];
      assert UniqueNames(tail) by {
        forall i, j | 0 <= i < j < |tail|
          ensures tail[i].name != tail[j].name
        {
          assert tail[i] == categories[i + 1] && tail[j] == categories[j + 1];
        }
      }
      RemoveKeepsUniqueNames(tail, name);
      var rest := RemoveByName(tail, name);
      if categories[0].name != name {
        forall j | 0 <= j < |rest|
          ensures rest[j].name != categories[0].name
        {
          assert rest[j] in tail;
          var k :| 0 <= k < |tail| && tail[k] == rest[j];
          assert categories[k + 1] == rest[j];
        }
      }
    }
  }

  /** With non-negative amounts, removing categories never raises the allocated amount. */
  lemma {:induction false} RemoveLowersAllocated(categories: seq<BudgetCategory>, name: string)
    requires NonNegativeAmounts(categories)
    ensures Allocated(RemoveByName(categories, name)) <= Allocated(categories)
  {
    if |categories| > 0 {
      var c := categories[0];
      var tail := categories[1..];
      assert categories == [c] + tail;
      assert NonNegativeAmounts(tail) by {
        forall i | 0 <= i < |tail| ensures tail[i].amount >= 0.0 {
          assert tail[i] == categories[i + 1];
        }
      }
      RemoveLowersAllocated(tail, name);
      AllocatedCons(c, tail);
      if c.name != name {
        AllocatedCons(c, RemoveByName(tail, name));
      }
    }
  }

  /** The state of `useMonthlyBudgetPlanner`. Every category name is unique. */
  class BudgetPlanner {
    var totalBudget: real
    var userDefinedCategories: seq<BudgetCategory>
    var categoryError: Option<string>

    ghost predicate Valid()
      reads this
    {
      UniqueNames(userDefinedCategories)
    }

    /** The total budget is `initialBudget ?? 0`; no categories, no error. */
    constructor (initialBudget: Option<real>)
      ensures Valid()
      ensures totalBudget == (if initialBudget.Some? then initialBudget.value else DefaultBudget)
      ensures userDefinedCategories == [] && categoryError == None
    {
      totalBudget := if initialBudget.Some? then initialBudget.value else DefaultBudget;
      userDefinedCategories := [];
      categoryError := None;
    }

    /** `allocatedAmount`. */
    function AllocatedAmount(): real
      reads this
    {
      Allocated(userDefinedCategories)
    }

    /** The allocated amount never exceeds the total budget. */
    predicate WithinBudget()
      reads this
    {
      AllocatedAmount() <= totalBudget
    }

    /** `unallocatedBudget`: the fixed pseudo-category holding whatever is not allocated. */
    function UnallocatedBudget(): (u: BudgetCategory)
      reads this
      ensures u.id == UnallocatedId && u.name == UnallocatedName && u.color == UnallocatedColor
      ensures u.amount + AllocatedAmount() == totalBudget
      ensures u.amount >= 0.0 <==> WithinBudget()
    {
      BudgetCategory(UnallocatedId, UnallocatedName, totalBudget - AllocatedAmount(), UnallocatedColor)
    }

    /** `categoryExists`. */
    function CategoryExists(name: string): (b: bool)
      reads this
      ensures b <==> exists i :: 0 <= i < |userDefinedCategories| && userDefinedCategories[i].name == name
    {
      ContainsName(userDefinedCategories, name)
    }

    /** `isValidCategoryName`: no category has the name yet. */
    function IsValidCategoryName(name: string): (b: bool)
      reads this
      ensures b <==> forall i :: 0 <= i < |userDefinedCategories| ==> userDefinedCategories[i].name != name
      ensures b <==> !CategoryExists(name)
    {
      !ContainsName(userDefinedCategories, name)
    }

    /** `isValidCategoryAmount`: the amount fits in the unallocated budget. */
    function IsValidCategoryAmount(amount: real): (b: bool)
      reads this
      ensures b <==> amount <= UnallocatedBudget().amount
    {
      amount + AllocatedAmount() <= totalBudget
    }

    /** `resetCategoryError`. */
    method ResetCategoryError()
      requires Valid()
      modifies this
      ensures Valid()
      ensures categoryError == None
      ensures totalBudget == old(totalBudget) && userDefinedCategories == old(userDefinedCategories)
    {
      categoryError := None;
    }

    /** `handleBudgetChange`: a value that does not parse as a number sets the default budget; any
        number is accepted, even one below the allocated amount. */
    method HandleBudgetChange(parsed: Option<real>)
      requires Valid()
      modifies this
      ensures Valid()
      ensures totalBudget == (if parsed.Some? then parsed.value else DefaultBudget)
      ensures userDefinedCategories == old(userDefinedCategories) && categoryError == old(categoryError)
    {
      if parsed.Some? {
        totalBudget := parsed.value;
      } else {
        totalBudget := DefaultBudget;
      }
    }

    /** `resetBudget`. */
    method ResetBudget()
      requires Valid()
      modifies this
      ensures Valid()
      ensures totalBudget == DefaultBudget
      ensures userDefinedCategories == old(userDefinedCategories) && categoryError == old(categoryError)
    {
      totalBudget := DefaultBudget;
    }

    /** `addCategory`, with the fresh UUID passed in as `id`. The name is checked before the
        amount; a rejection records its message and leaves the list as it was, and an accepted
        category is appended at the end. Amounts of 0 or below are not rejected here. */
    method AddCategory(name: string, amount: real, color: string, id: string) returns (added: bool)
      requires Valid()
      modifies this
      ensures Valid()
      ensures totalBudget == old(totalBudget)
      ensures added <==> old(IsValidCategoryName(name)) && old(IsValidCategoryAmount(amount))
      ensures !old(IsValidCategoryName(name)) ==> categoryError == Some(DuplicateNameError(name))
      ensures old(IsValidCategoryName(name)) && !old(IsValidCategoryAmount(amount)) ==>
                categoryError == Some(AmountExceedsError)
      ensures !added ==> userDefinedCategories == old(userDefinedCategories)
      ensures added ==> userDefinedCategories == old(userDefinedCategories) + [BudgetCategory(id, name, amount, color)]
      ensures added ==> categoryError == old(categoryError)
      ensures added ==> UnallocatedBudget().amount == old(UnallocatedBudget().amount) - amount
      ensures added ==> WithinBudget()
      ensures old(WithinBudget()) ==> WithinBudget()
    {
      if !IsValidCategoryName(name) {
        categoryError := Some(DuplicateNameError(name));
        return false;
      }
      if !IsValidCategoryAmount(amount) {
        categoryError := Some(AmountExceedsError);
        return false;
      }
      var category := BudgetCategory(id, name, amount, color);
      AllocatedAppend(userDefinedCategories, category);
      userDefinedCategories := userDefinedCategories + [category];
      return true;
    }

    /** `removeCategory`: every category with the name goes, the others keep their order. With
        non-negative amounts the list stays within the budget. */
    method RemoveCategory(name: string)
      requires Valid()
      modifies this
      ensures Valid()
      ensures userDefinedCategories == RemoveByName(old(userDefinedCategories), name)
      ensures !CategoryExists(name)
      ensures totalBudget == old(totalBudget) && categoryError == old(categoryError)
      ensures old(WithinBudget()) && NonNegativeAmounts(old(userDefinedCategories)) ==> WithinBudget()
    {
      RemoveKeepsUniqueNames(userDefinedCategories, name);
      if NonNegativeAmounts(userDefinedCategories) {
        RemoveLowersAllocated(userDefinedCategories, name);
      }
      userDefinedCategories := RemoveByName(userDefinedCategories, name);
    }

    /** `resetCategories`. */
    method ResetCategories()
      requires Valid()
      modifies this
      ensures Valid()
      ensures userDefinedCategories == []
      ensures UnallocatedBudget().amount == totalBudget
      ensures totalBudget == old(totalBudget) && categoryError == old(categoryError)
    {
      userDefinedCategories := [];
    }
  }
}
