/**
  The per-column decision of predict_price: which one-hot family a training-time
  feature name belongs to, and the indicator value it receives.

  Python's `col.startswith(p)` is Dafny's sequence-prefix test `p <= col`; an
  f-string `f"brand_{brand}"` is the concatenation `"brand_" + brand`.
 */
module Dispatch {

  datatype Option<T> = None | Some(value: T)

  /** The form inputs of predict_price, as they reach the function. */
  datatype Inputs = Inputs(
    brand: string,
    modelName: string,
    year: real,
    milage: real,
    fuelType: string,
    transmission: string,
    country: string,
    income: real,
    gdpp: real)

  /** The five one-hot families tested by the elif chain, in no particular order. */
  datatype Category = Brand | FuelType | Transmission | Country | ModelName

  /** The column-name prefix tested for each family. */
  function Prefix(c: Category): string
  {
    match c
    case Brand => "brand_"
    case FuelType => "fuel_type_"
    case Transmission => "transmission_"
    case Country => "country_"
    case ModelName => "model_"
  }

  /** The position of each family's test in the elif chain (0 is tested first). */
  function Rank(c: Category): nat
  {
    match c
    case Brand => 0
    case FuelType => 1
    case Transmission => 2
    case Country => 3
    case ModelName => 4
  }

  /** The categorical input a family's indicator is compared against. */
  function Choice(c: Category, inp: Inputs): string
  {
    match c
    case Brand => inp.brand
    case FuelType => inp.fuelType
    case Transmission => inp.transmission
    case Country => inp.country
    case ModelName => inp.modelName
  }

  /** The one column of family `c` that the inputs switch on. */
  function Target(c: Category, inp: Inputs): string
  {
    Prefix(c) + Choice(c, inp)
  }

  /**
    The branch of the elif chain a column name takes. `None` is the final
    fall-through branch (zero-fill unless already present). The result is the
    family of lowest rank whose prefix the name starts with, and `None` exactly
    when the name starts with none of the five prefixes.
   */
  function Classify(col: string): (r: Option<Category>)
    ensures r.Some? ==> Prefix(r.value) <= col
    ensures r.Some? ==> forall d: Category :: Rank(d) < Rank(r.value) ==> !(Prefix(d) <= col)
    ensures r.None? <==> forall d: Category :: !(Prefix(d) <= col)
  {
    if "brand_" <= col then Some(Brand)
    else if "fuel_type_" <= col then Some(FuelType)
    else if "transmission_" <= col then Some(Transmission)
    else if "country_" <= col then Some(Country)
    else if "model_" <= col then Some(ModelName)
    else None
  }

  /**
    The value a column of family `c` is assigned: a 0/1 indicator that is
    switched on only for the family's target column, which carries the
    family's prefix.
   */
  function Indicator(col: string, c: Category, inp: Inputs): (v: real)
    ensures v == 0.0 || v == 1.0
    ensures v == 1.0 ==> Prefix(c) <= col
  {
    if col == Target(c, inp) then 1.0 else 0.0
  }

  /** Python's `int(x)` on a float: truncation toward zero. */
  function Truncate(x: real): (n: int)
    ensures 0.0 <= x ==> n as real <= x < n as real + 1.0
    ensures x < 0.0 ==> n as real - 1.0 < x <= n as real
  {
    if 0.0 <= x then x.Floor else -((-x).Floor)
  }

  /**
    Each family's target column is routed to that family's own branch: no
    prefix is a prefix of another family's prefix, since the five begin with
    distinct letters.
   */
  lemma TargetClassified(c: Category, inp: Inputs)
    ensures Classify(Target(c, inp)) == Some(c)
  {
    var t := Target(c, inp);
    assert Prefix(c) <= t;
    forall d: Category | d != c
      ensures !(Prefix(d) <= t)
    {
      assert Prefix(d)[0] != Prefix(c)[0];
      assert t[0] == Prefix(c)[0];
    }
  }
}
