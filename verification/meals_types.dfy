/**
 * Validation of meals (src/types/meals.types.ts): the price format and the
 * create and update schemas.
 */
module MealsTypes {
  import opened Wrappers
  import opened Text

  // ---------------------------------------------------------------------------
  // The price pattern ^-?\d+(\.\d{1,2})?$
  // ---------------------------------------------------------------------------

  /** `(\.\d{1,2})?`: nothing, or a point followed by one or two digits. */
  predicate IsCents(s: string)
  {
    s == [] || (s[0] == '.' && 2 <= |s| <= 3 && forall i :: 1 <= i < |s| ==> IsAsciiDigit(s[i]))
  }

  /**
   * The language of the pattern, read off its parts: an optional minus sign ending at `a`,
   * the digits `s[a..b]`, and the optional cents.
   */
  ghost predicate MatchesPricePattern(s: string)
  {
    exists a: nat, b: nat :: a <= b <= |s| && PriceSplit(s, a, b)
  }

  predicate PriceSplit(s: string, a: nat, b: nat)
    requires a <= b <= |s|
  {
    (s[..a] == "" || s[..a] == "-") && IsDigits(s[a..b]) && IsCents(s[b..])
  }

  /** The recogniser: strip one minus sign, take the greedy digit run, and check what is left. */
  function IsPrice(s: string): (r: bool)
  {
    var a := if |s| > 0 && s[0] == '-' then 1 else 0;
    var n := DigitRun(s[a..]);
    n > 0 && IsCents(s[a + n..])
  }

  /** The recogniser accepts exactly the strings of the pattern. */
  lemma PriceRecogniserCorrect(s: string)
    ensures IsPrice(s) <==> MatchesPricePattern(s)
  {
    var a := if |s| > 0 && s[0] == '-' then 1 else 0;
    var n := DigitRun(s[a..]);
    if IsPrice(s) {
      assert s[a..][..n] == s[a..a + n];
      assert s[a + n..] == s[a..][n..];
      assert PriceSplit(s, a, a + n);
    }
    if MatchesPricePattern(s) {
      var a': nat, b': nat :| a' <= b' <= |s| && PriceSplit(s, a', b');
      PatternSplitIsGreedy(s, a', b');
    }
  }

  /** Any split the pattern allows is the one the recogniser takes. */
  lemma PatternSplitIsGreedy(s: string, a: nat, b: nat)
    requires a <= b <= |s| && PriceSplit(s, a, b)
    ensures a == (if |s| > 0 && s[0] == '-' then 1 else 0)
    ensures b == a + DigitRun(s[a..])
    ensures IsPrice(s)
  {
    assert IsAsciiDigit(s[a..b][0]);
    if a == 1 {
      assert s[..a][0] == s[0];
    }
    var n := DigitRun(s[a..]);
    forall i | 0 <= i < b - a ensures IsAsciiDigit(s[a..][i]) {
      assert s[a..][i] == s[a..b][i];
    }
    assert b - a <= n;
    if b < |s| {
      assert s[b..][0] == s[b] == s[a..][b - a];
    }
  }

  /** Whole numbers, one or two decimals and negative prices pass. */
  lemma AcceptedPrices()
    ensures IsPrice("12") && IsPrice("12.5") && IsPrice("12.50") && IsPrice("-3.99")
  {
    assert DigitRun("12") == 2;
    assert DigitRun("12.5") == 2;
    assert DigitRun("12.50") == 2;
    assert DigitRun("3.99") == 1;
  }

  /** A trailing point, a bare point, three decimals and a comma do not. */
  lemma RejectedDecimals()
    ensures !IsPrice("12.") && !IsPrice(".5") && !IsPrice("12.345") && !IsPrice("1,5")
  {
    assert DigitRun("12.") == 2;
    assert DigitRun("12.345") == 2;
    assert DigitRun("1,5") == 1;
  }

  /** Neither a plus sign, nor a lone minus, nor the empty string, nor a trailing line break. */
  lemma RejectedSigns()
    ensures !IsPrice("+1") && !IsPrice("") && !IsPrice("-") && !IsPrice("1.5\n")
  {
    assert DigitRun("1.5\n") == 1;
    assert "1.5\n"[1..] == ".5\n" && !IsAsciiDigit(".5\n"[2]);
  }

  // ---------------------------------------------------------------------------
  // Create and update schemas
  // ---------------------------------------------------------------------------

  datatype MealField = Name | Description | DefaultPrice

  datatype Issue = Issue(field: MealField, message: string)

  const NameRequired := "Nome é obrigatório"
  const DescriptionRequired := "Descrição é obrigatória"
  const InvalidPrice := "Preço tem que ser um numéro valido até duas casas decimais"

  datatype CreateMeal = CreateMeal(name: string, description: string, defaultPrice: string)

  /** Every field of an update is optional. */
  datatype UpdateMeal = UpdateMeal(name: Option<string>, description: Option<string>, defaultPrice: Option<string>)

  function NameIssues(name: string): seq<Issue> { if |name| >= 1 then [] else [Issue(Name, NameRequired)] }
  function DescriptionIssues(d: string): seq<Issue> { if |d| >= 1 then [] else [Issue(Description, DescriptionRequired)] }
  function PriceIssues(p: string): seq<Issue> { if IsPrice(p) then [] else [Issue(DefaultPrice, InvalidPrice)] }

  /** CreateMealSchema (= BaseMealSchema): the issues of a create form, field by field. */
  function CreateMealIssues(m: CreateMeal): (r: seq<Issue>)
    ensures r == [] <==> m.name != "" && m.description != "" && IsPrice(m.defaultPrice)
    ensures Issue(Name, NameRequired) in r <==> m.name == ""
    ensures Issue(Description, DescriptionRequired) in r <==> m.description == ""
    ensures Issue(DefaultPrice, InvalidPrice) in r <==> !IsPrice(m.defaultPrice)
  {
    NameIssues(m.name) + DescriptionIssues(m.description) + PriceIssues(m.defaultPrice)
  }

  function IfPresent(v: Option<string>, check: string -> seq<Issue>): seq<Issue>
  {
    if v.Some? then check(v.value) else []
  }

  /** UpdateMealSchema (= CreateMealSchema.partial()): absent fields pass, present ones are checked as on create. */
  function UpdateMealIssues(u: UpdateMeal): (r: seq<Issue>)
    ensures r == [] <==> (u.name.Some? ==> u.name.value != "")
                         && (u.description.Some? ==> u.description.value != "")
                         && (u.defaultPrice.Some? ==> IsPrice(u.defaultPrice.value))
  {
    IfPresent(u.name, NameIssues) + IfPresent(u.description, DescriptionIssues) + IfPresent(u.defaultPrice, PriceIssues)
  }

  /** An update carrying every field is judged exactly like a create. */
  lemma FullUpdateIsCreate(m: CreateMeal)
    ensures UpdateMealIssues(UpdateMeal(Some(m.name), Some(m.description), Some(m.defaultPrice))) == CreateMealIssues(m)
  {
  }

  /** The empty update is valid. */
  lemma EmptyUpdateValid()
    ensures UpdateMealIssues(UpdateMeal(None, None, None)) == []
  {
  }
}
