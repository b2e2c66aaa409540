/**
  The single-row feature reconstruction of predict_price: seed a dictionary
  with five fixed keys, walk the training-time feature names updating it, and
  project it onto those names in order.

  The dictionary is a `map<string, real>`. Python keeps `model_year` and
  `price_vs_gdpp` as ints and the rest as floats; here every value is a real.
 */
module FeatureRow {
  import opened Dispatch

  type Dict = map<string, real>

  /** The keys the dictionary literal starts with. */
  const SeedKeys: set<string> := {"model_year", "milage", "income", "gdpp", "price_vs_gdpp"}

  /** The dictionary literal `input_dict = {...}`. */
  function Seed(inp: Inputs): (d: Dict)
    ensures d.Keys == SeedKeys
  {
    map["model_year" := Truncate(inp.year) as real,
        "milage" := inp.milage,
        "income" := inp.income,
        "gdpp" := inp.gdpp,
        "price_vs_gdpp" := 0.0]
  }

  /**
    One iteration of the loop for column `col`: a column of a one-hot family is
    (over)written with its indicator; any other column is zero-filled only when
    it is not yet a key. Only `col` can change.
   */
  function Step(d: Dict, col: string, inp: Inputs): (d': Dict)
    ensures d'.Keys == d.Keys + {col}
    ensures forall k :: k in d && k != col ==> d'[k] == d[k]
  {
    match Classify(col)
    case Some(c) => d[col := Indicator(col, c, inp)]
    case None => if col in d then d else d[col := 0.0]
  }

  /** The loop run over `cols` in order, starting from `d`. */
  function EncodeFrom(d: Dict, cols: seq<string>, inp: Inputs): (r: Dict)
    ensures r.Keys == d.Keys + NameSet(cols)
  {
    if cols == [] then d
    else Step(EncodeFrom(d, cols[..|cols| - 1], inp), cols[|cols| - 1], inp)
  }

  /** The names occurring in `cols`. */
  function NameSet(cols: seq<string>): set<string>
  {
    set c | c in cols
  }

  /** The dictionary after the loop of predict_price. */
  function Encode(names: seq<string>, inp: Inputs): (r: Dict)
    ensures r.Keys == SeedKeys + NameSet(names)
  {
    EncodeFrom(Seed(inp), names, inp)
  }

  /**
    The value key `k` ends with, stated without reference to the order of the
    loop: a one-hot column among `cols` holds its indicator; otherwise the
    starting value survives; a fresh column is 0.0.
   */
  function Resolve(d: Dict, cols: seq<string>, k: string, inp: Inputs): real
  {
    if k in cols && Classify(k).Some? then Indicator(k, Classify(k).value, inp)
    else if k in d then d[k]
    else 0.0
  }

  /** The dictionary after the loop, as a closed form. */
  function Reference(d: Dict, cols: seq<string>, inp: Inputs): Dict
  {
    map k | k in d.Keys + NameSet(cols) :: Resolve(d, cols, k, inp)
  }

  /**
    `pd.DataFrame([d])[cols]`: the row of `d`'s values in the order of `cols`,
    or `None` (a KeyError) when some name is not a key of `d`.
   */
  function Select(d: Dict, cols: seq<string>): (r: Option<seq<real>>)
    ensures r.Some? <==> forall k :: 0 <= k < |cols| ==> cols[k] in d
    ensures r.Some? ==> |r.value| == |cols|
    ensures r.Some? ==> forall k :: 0 <= k < |cols| ==> r.value[k] == d[cols[k]]
  {
    if cols == [] then Some([])
    else if cols[0] !in d then None
    else match Select(d, cols[1..])
      case None => None
      case Some(rest) => Some([d[cols[0]]] + rest)
  }

  /**
    The dictionary seeding, the dispatch loop and the column projection of
    predict_price. The loop follows the elif chain of the source; the row has
    one entry per feature name, in feature-name order, so every name was a
    key and the projection cannot fail.
   */
  method BuildFeatureRow(featureNames: seq<string>, inp: Inputs) returns (inputDict: Dict, xInput: seq<real>)
    ensures inputDict == Encode(featureNames, inp)
    ensures Select(inputDict, featureNames) == Some(xInput)
    ensures |xInput| == |featureNames|
    ensures forall k :: 0 <= k < |featureNames| ==> xInput[k] == inputDict[featureNames[k]]
  {
    inputDict := Seed(inp);
    var columns := featureNames;
    for i := 0 to |columns|
      invariant inputDict == EncodeFrom(Seed(inp), columns[..i], inp)
      invariant forall k :: 0 <= k < i ==> columns[k] in inputDict
    {
      var col := columns[i];
      ghost var before := inputDict;
      if "brand_" <= col {
        assert Classify(col) == Some(Brand);
        inputDict := inputDict[col := if col == "brand_" + inp.brand then 1.0 else 0.0];
      } else if "fuel_type_" <= col {
        assert Classify(col) == Some(FuelType);
        inputDict := inputDict[col := if col == "fuel_type_" + inp.fuelType then 1.0 else 0.0];
      } else if "transmission_" <= col {
        assert Classify(col) == Some(Transmission);
        inputDict := inputDict[col := if col == "transmission_" + inp.transmission then 1.0 else 0.0];
      } else if "country_" <= col {
        assert Classify(col) == Some(Country);
        inputDict := inputDict[col := if col == "country_" + inp.country then 1.0 else 0.0];
      } else if "model_" <= col {
        assert Classify(col) == Some(ModelName);
        inputDict := inputDict[col := if col == "model_" + inp.modelName then 1.0 else 0.0];
      } else {
        assert Classify(col).None?;
        if col !in inputDict {
          inputDict := inputDict[col := 0.0];
        }
      }
      assert inputDict == Step(before, col, inp);
      assert columns[..i + 1][..i] == columns[..i];
    }
    assert columns[..|columns|] == columns;
    var sel := Select(inputDict, columns);
    xInput := sel.value;
  }

  /** The loop computes the closed form, for every starting dictionary. */
  lemma {:induction false} EncodeIsReference(d: Dict, cols: seq<string>, inp: Inputs)
    ensures EncodeFrom(d, cols, inp) == Reference(d, cols, inp)
  {
    if cols != [] {
      var init, last := cols[..|cols| - 1], cols[|cols| - 1];
      assert cols == init + [last];
      EncodeIsReference(d, init, inp);
      var before := Reference(d, init, inp);
      var after := Step(before, last, inp);
      var want := Reference(d, cols, inp);
      assert NameSet(cols) == NameSet(init) + {last};
      assert after.Keys == want.Keys;
      forall k | k in want
        ensures after[k] == want[k]
      {
        assert k in cols <==> k in init || k == last;
      }
    }
  }

  /**
    A feature name of a one-hot family is 1.0 exactly when it is that family's
    target column, and 0.0 otherwise.
   */
  lemma IndicatorExact(names: seq<string>, inp: Inputs, col: string, c: Category)
    requires col in names
    requires Classify(col) == Some(c)
    ensures Encode(names, inp)[col] == 1.0 <==> col == Target(c, inp)
    ensures Encode(names, inp)[col] == 0.0 <==> col != Target(c, inp)
  {
    EncodeIsReference(Seed(inp), names, inp);
  }

  /** Whether `s` has no repeated element. */
  predicate NoDuplicates(s: seq<string>)
  {
    forall i, j :: 0 <= i < j < |s| ==> s[i] != s[j]
  }

  /**
    With distinct feature names, no two columns of the same family are both
    1.0 in the row: of any two, at least one is 0.0.
   */
  lemma AtMostOneHot(names: seq<string>, inp: Inputs, c: Category, i: nat, j: nat)
    requires NoDuplicates(names)
    requires i < |names| && j < |names| && i != j
    requires Classify(names[i]) == Some(c) && Classify(names[j]) == Some(c)
    ensures Encode(names, inp)[names[i]] == 0.0 || Encode(names, inp)[names[j]] == 0.0
  {
    IndicatorExact(names, inp, names[i], c);
    IndicatorExact(names, inp, names[j], c);
  }

  /**
    A brand, fuel type, transmission, country or model name that has no column
    in the schema leaves every column of its family at 0.0 (no error is raised).
   */
  lemma UnseenCategoryZero(names: seq<string>, inp: Inputs, c: Category)
    requires Target(c, inp) !in names
    ensures forall k :: 0 <= k < |names| && Classify(names[k]) == Some(c) ==> Encode(names, inp)[names[k]] == 0.0
  {
    EncodeIsReference(Seed(inp), names, inp);
  }

  /** A category that does have a column in the schema switches exactly that column on. */
  lemma SeenCategoryHot(names: seq<string>, inp: Inputs, c: Category)
    requires Target(c, inp) in names
    ensures Encode(names, inp)[Target(c, inp)] == 1.0
  {
    TargetClassified(c, inp);
    IndicatorExact(names, inp, Target(c, inp), c);
  }

  /**
    How the seeded keys are routed when they occur as feature names: only
    `model_year` starts with a prefix (`model_`).
   */
  lemma SeedKeysClassified()
    ensures Classify("model_year") == Some(ModelName)
    ensures Classify("milage").None? && Classify("income").None?
    ensures Classify("gdpp").None? && Classify("price_vs_gdpp").None?
  {
    assert "model_" <= "model_year";
    forall d: Category
      ensures !(Prefix(d) <= "milage") && !(Prefix(d) <= "income")
      ensures !(Prefix(d) <= "gdpp") && !(Prefix(d) <= "price_vs_gdpp")
    {
      assert Prefix(d)[1] != "milage"[1];
      assert Prefix(d)[0] != "income"[0] && Prefix(d)[0] != "gdpp"[0];
      assert Prefix(d)[0] != "price_vs_gdpp"[0];
    }
  }

  /**
    A seeded key keeps its seeded value unless it starts with one of the five
    prefixes and is a feature name.
   */
  lemma SeededKeySurvives(names: seq<string>, inp: Inputs, k: string)
    requires k in SeedKeys
    requires k !in names || Classify(k).None?
    ensures Encode(names, inp)[k] == Seed(inp)[k]
  {
    EncodeIsReference(Seed(inp), names, inp);
  }

  /**
    `milage`, `income`, `gdpp` and `price_vs_gdpp` start with none of the
    prefixes, so they keep their inputs whatever the feature names are;
    `price_vs_gdpp` is always 0.
   */
  lemma NumericInputsKept(names: seq<string>, inp: Inputs)
    ensures Encode(names, inp)["milage"] == inp.milage
    ensures Encode(names, inp)["income"] == inp.income
    ensures Encode(names, inp)["gdpp"] == inp.gdpp
    ensures Encode(names, inp)["price_vs_gdpp"] == 0.0
  {
    SeedKeysClassified();
    SeededKeySurvives(names, inp, "milage");
    SeededKeySurvives(names, inp, "income");
    SeededKeySurvives(names, inp, "gdpp");
    SeededKeySurvives(names, inp, "price_vs_gdpp");
  }

  /**
    `model_year` starts with `model_`: when it is a feature name the loop
    replaces the truncated year with the model-name indicator, which is 1.0
    only for the model name "year".
   */
  lemma ModelYearOverwritten(names: seq<string>, inp: Inputs)
    ensures "model_year" in names ==>
      Encode(names, inp)["model_year"] == (if inp.modelName == "year" then 1.0 else 0.0)
    ensures "model_year" !in names ==>
      Encode(names, inp)["model_year"] == Truncate(inp.year) as real
  {
    EncodeIsReference(Seed(inp), names, inp);
    SeedKeysClassified();
    var m := inp.modelName;
    if "model_year" == "model_" + m {
      assert m == ("model_" + m)[6..] == "model_year"[6..];
    }
    assert "model_year" == "model_" + m <==> m == "year";
  }

  /**
    A feature name matching no prefix and not seeded is zero-filled, and every
    feature name that is not a seeded non-prefixed key holds 0.0 or 1.0.
   */
  lemma ZeroFillAndBinary(names: seq<string>, inp: Inputs, col: string)
    requires col in names
    ensures Classify(col).None? && col !in SeedKeys ==> Encode(names, inp)[col] == 0.0
    ensures Classify(col).Some? || col !in SeedKeys ==>
      Encode(names, inp)[col] == 0.0 || Encode(names, inp)[col] == 1.0
  {
    EncodeIsReference(Seed(inp), names, inp);
  }

  /**
    The value an iteration writes to a one-hot column depends only on the
    column name and the inputs, not on what earlier iterations left behind.
   */
  lemma StepIndependentOfState(d1: Dict, d2: Dict, col: string, inp: Inputs)
    requires Classify(col).Some?
    ensures Step(d1, col, inp)[col] == Step(d2, col, inp)[col]
  {
  }

  /** Repeating a feature name already in the list changes nothing. */
  lemma DuplicateNameNoEffect(names: seq<string>, inp: Inputs, col: string)
    requires col in names
    ensures Encode(names + [col], inp) == Encode(names, inp)
  {
    var names' := names + [col];
    assert names'[..|names'| - 1] == names;
    EncodeIsReference(Seed(inp), names, inp);
    var d := Encode(names, inp);
    assert col in d;
    match Classify(col)
    case Some(c) =>
      assert d[col] == Indicator(col, c, inp);
      assert d[col := Indicator(col, c, inp)] == d;
    case None =>
  }

  /**
    The dictionary depends on the set of feature names only: reordering or
    repeating names changes the projected row's order, never its values.
   */
  lemma OrderIrrelevant(names1: seq<string>, names2: seq<string>, inp: Inputs)
    requires forall c :: c in names1 <==> c in names2
    ensures Encode(names1, inp) == Encode(names2, inp)
  {
    EncodeIsReference(Seed(inp), names1, inp);
    EncodeIsReference(Seed(inp), names2, inp);
    assert NameSet(names1) == NameSet(names2);
  }
}
