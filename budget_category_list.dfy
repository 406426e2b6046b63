/** The decision rules of the budget category list (src/components/BudgetCategoryList.tsx): the
    amount and name validators of the new-category form, which rows are listed, and when the form
    is offered. */
module BudgetCategoryList {
  import opened Wrappers
  import opened JsValues
  import opened MonthlyBudgetPlanner

  /** The longest category name the form accepts. */
  const MaxNameLength: int := 50

  /** The messages of the amount validator; the unallocated amount is shown in the last one. */
  datatype AmountError =
    | AmountRequired
    | AmountNotPositive
    | AmountExceedsUnallocated(unallocated: real)

  /** The messages of the name validator. */
  datatype NameError =
    | NameRequired
    | NameLength
    | NameNotUnique

  function NameMessage(e: NameError): string
  {
    match e
    case NameRequired => "Category name is required"
    case NameLength => "Category name must be between 1 and 50 characters"
    case NameNotUnique => "Category name must be unique"
  }

  /** The `categoryAmount` validator, with the text given by what `parseFloat` makes of it. */
  function ValidateAmount(value: TextInput, unallocated: real): (e: Option<AmountError>)
    ensures value.Blank? <==> e == Some(AmountRequired)
    ensures e == Some(AmountNotPositive) <==> value.Text? && (value.parsed.NaN? || value.parsed.value <= 0.0)
    ensures e.None? <==> value.Text? && value.parsed.Num? && 0.0 < value.parsed.value <= unallocated
    ensures e.Some? && e.value.AmountExceedsUnallocated? ==> e.value.unallocated == unallocated
  {
    if value.Blank? then Some(AmountRequired)
    else if value.parsed.NaN? || value.parsed.value <= 0.0 then Some(AmountNotPositive)
    else if value.parsed.value > unallocated then Some(AmountExceedsUnallocated(unallocated))
    else None
  }

  /** The characters `String.prototype.trim` removes: the white space of ECMAScript (tab, vertical
      tab, form feed, the byte-order mark and every space separator: space, no-break space, ogham
      space mark, the spaces U+2000 to U+200A, narrow no-break space, medium mathematical space and
      ideographic space) and its line terminators (line feed, carriage return, line separator and
      paragraph separator). */
  predicate IsWhitespace(c: char)
  {
    c == '\t' || c == '\U{000B}' || c == '\U{000C}' || c == '\U{FEFF}'
    || c == ' ' || c == '\U{00A0}' || c == '\U{1680}' || ('\U{2000}' <= c <= '\U{200A}')
    || c == '\U{202F}' || c == '\U{205F}' || c == '\U{3000}'
    || c == '\n' || c == '\r' || c == '\U{2028}' || c == '\U{2029}'
  }

  /** `value.trim() === ''`: the text is whitespace only. */
  predicate TrimsToEmpty(value: string)
  {
    forall i :: 0 <= i < |value| ==> IsWhitespace(value[i])
  }

  /** `String.prototype.length`: the number of UTF-16 code units, two for every character outside
      the Basic Multilingual Plane (a surrogate pair) and one for every other. */
  function Utf16Length(s: string): (n: nat)
    ensures |s| <= n <= 2 * |s|
    ensures (forall i :: 0 <= i < |s| ==> (s[i] as int) < 0x1_0000) ==> n == |s|
    ensures (forall i :: 0 <= i < |s| ==> (s[i] as int) >= 0x1_0000) ==> n == 2 * |s|
  {
    if |s| == 0 then 0
    else (if (s[0] as int) >= 0x1_0000 then 2 else 1) + Utf16Length(s[1..])
  }

  /** The `categoryName` validator, over the current categories. The untrimmed name is measured,
      in UTF-16 code units, and looked up. */
  function ValidateName(value: string, categories: seq<BudgetCategory>): (e: Option<NameError>)
    ensures e == Some(NameRequired) <==> TrimsToEmpty(value)
    ensures e == Some(NameLength) <==> !TrimsToEmpty(value) && Utf16Length(value) > MaxNameLength
    ensures e == Some(NameNotUnique) <==>
              !TrimsToEmpty(value) && Utf16Length(value) <= MaxNameLength && ContainsName(categories, value)
    ensures e.None? <==>
              !TrimsToEmpty(value) && 1 <= Utf16Length(value) <= MaxNameLength && !ContainsName(categories, value)
  {
    if TrimsToEmpty(value) then Some(NameRequired)
    // A name of length below 1 is empty and was already caught above; the test mirrors the form's own.
    else if Utf16Length(value) < 1 || Utf16Length(value) > MaxNameLength then Some(NameLength)
    else if ContainsName(categories, value) then Some(NameNotUnique)
    else None
  }

  /** A name made only of line separators or ideographic spaces is blank, as `trim` sees it. */
  lemma UnicodeSpacesAreBlank(categories: seq<BudgetCategory>)
    ensures ValidateName("\U{2028}\U{2029}", categories) == Some(NameRequired)
    ensures ValidateName("\U{3000}\U{1680}\U{2005}", categories) == Some(NameRequired)
    ensures ValidateName("a\U{3000}", categories) != Some(NameRequired)
  {
    assert TrimsToEmpty("\U{2028}\U{2029}");
    assert TrimsToEmpty("\U{3000}\U{1680}\U{2005}");
    assert !IsWhitespace("a\U{3000}"[0]);
  }

  /** A name of 26 characters outside the Basic Multilingual Plane measures 52 and is rejected
      as too long, while a name of 50 characters inside it is accepted when it is new. */
  lemma NameLengthCountsCodeUnits(value: string, categories: seq<BudgetCategory>)
    requires !TrimsToEmpty(value)
    ensures (forall i :: 0 <= i < |value| ==> (value[i] as int) >= 0x1_0000) && |value| == 26
            ==> ValidateName(value, categories) == Some(NameLength)
    ensures (forall i :: 0 <= i < |value| ==> (value[i] as int) < 0x1_0000) && |value| == 50
            && !ContainsName(categories, value)
            ==> ValidateName(value, categories).None?
  {
  }

  /** A name the validator accepts is one `addCategory` does not reject as a duplicate. */
  lemma AcceptedNameIsNew(value: string, categories: seq<BudgetCategory>)
    requires ValidateName(value, categories).None?
    ensures forall i :: 0 <= i < |categories| ==> categories[i].name != value
    ensures |RemoveByName(categories, value)| == |categories|
  {
    RemoveAbsentName(categories, value);
  }

  /** An amount the validator accepts against the planner's unallocated amount is one
      `addCategory` does not reject, and it keeps the list within the budget. */
  lemma AcceptedAmountFits(value: TextInput, totalBudget: real, categories: seq<BudgetCategory>)
    requires ValidateAmount(value, totalBudget - Allocated(categories)).None?
    ensures value.parsed.value > 0.0
    ensures value.parsed.value + Allocated(categories) <= totalBudget
  {
  }

  /** Whether a row is left out: it is the unallocated row and nothing is left unallocated. */
  predicate HiddenRow(row: BudgetCategory, unallocated: BudgetCategory)
  {
    row.id == UnallocatedId && unallocated.amount == 0.0
  }

  /** `categoryRows`: the user categories and then the unallocated row, without hidden rows. */
  function CategoryRows(categories: seq<BudgetCategory>, unallocated: BudgetCategory): (rows: seq<BudgetCategory>)
    ensures forall r :: r in rows <==> r in categories + [unallocated] && !HiddenRow(r, unallocated)
    ensures |rows| <= |categories| + 1
  {
    VisibleRows(categories + [unallocated], unallocated)
  }

  function VisibleRows(candidates: seq<BudgetCategory>, unallocated: BudgetCategory): (rows: seq<BudgetCategory>)
    ensures forall r :: r in rows <==> r in candidates && !HiddenRow(r, unallocated)
    ensures |rows| <= |candidates|
  {
    if |candidates| == 0 then []
    else
      var rest := VisibleRows(candidates[1..], unallocated);
      assert forall r :: r in candidates <==> r == candidates[0] || r in candidates[1..];
      if HiddenRow(candidates[0], unallocated) then rest else [candidates[0]] + rest
  }

  /** When no user category has the id `'unallocated'` (user ids are fresh UUIDs), the rows are
      every user category in order, followed by the unallocated row unless its amount is 0. */
  lemma {:induction false} RowsAreCategoriesThenUnallocated(categories: seq<BudgetCategory>, unallocated: BudgetCategory)
    requires forall i :: 0 <= i < |categories| ==> categories[i].id != UnallocatedId
    requires unallocated.id == UnallocatedId
    ensures CategoryRows(categories, unallocated)
         == categories + (if unallocated.amount == 0.0 then [] else [unallocated])
  {
    UserRowsVisible(categories, unallocated);
    VisibleRowsConcat(categories, [unallocated], unallocated);
  }

  lemma {:induction false} UserRowsVisible(categories: seq<BudgetCategory>, unallocated: BudgetCategory)
    requires forall i :: 0 <= i < |categories| ==> categories[i].id != UnallocatedId
    ensures VisibleRows(categories, unallocated) == categories
  {
    if |categories| > 0 {
      assert forall i :: 0 <= i < |categories[1..]| ==> categories[1..][i] == categories[i + 1];
      UserRowsVisible(categories[1..], unallocated);
      assert [categories[0]] + categories[1..] == categories;
    }
  }

  lemma {:induction false} VisibleRowsConcat(a: seq<BudgetCategory>, b: seq<BudgetCategory>, unallocated: BudgetCategory)
    ensures VisibleRows(a + b, unallocated) == VisibleRows(a, unallocated) + VisibleRows(b, unallocated)
    decreases |a|
  {
    if |a| == 0 {
      assert a + b == b;
    } else {
      assert (a + b)[1..] == a[1..] + b;
      assert (a + b)[0] == a[0];
      VisibleRowsConcat(a[1..], b, unallocated);
    }
  }

  /** Whether the new-category form is offered. */
  predicate ShowAddForm(unallocated: BudgetCategory)
  {
    unallocated.amount > 0.0
  }

  /** The form is offered exactly when some amount would pass its amount validator. */
  lemma AddFormShownIffSomeAmountFits(unallocated: BudgetCategory)
    ensures ShowAddForm(unallocated) <==>
              exists x: real :: ValidateAmount(Text(Num(x)), unallocated.amount).None?
  {
    if ShowAddForm(unallocated) {
      assert ValidateAmount(Text(Num(unallocated.amount)), unallocated.amount).None?;
    }
  }
}
