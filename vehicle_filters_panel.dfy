/** The filter panel of the listing page
    (frontend/src/domain/vehicle/components/VehicleFilters/main.tsx): the
    panel keeps its own copy of the filters, and each checkbox or input
    handler replaces that copy with an updated one and hands the same value
    to the page. */
module VehicleFiltersPanel {
  import opened Wrappers
  import opened Text
  import opened Arrays
  import opened VehicleService

  /** `xs.filter((m) => m !== x)` */
  function Without(xs: seq<string>, x: string): (r: seq<string>)
    ensures x !in r
    ensures forall y :: y != x ==> (y in r <==> y in xs)
  {
    Filter(xs, (y: string) => y != x)
  }

  /** A checkbox list after a click: the value appended when checked, every
      occurrence of it removed when unchecked. */
  function Toggled(xs: Option<seq<string>>, x: string, checked: bool): seq<string> {
    if checked then xs.GetOr([]) + [x] else Without(xs.GetOr([]), x)
  }

  /** `filterOptions.modelos.find((m) => m === modelo)` is truthy: the model
      is offered and is not the empty string. */
  predicate Offered(options: seq<string>, modelo: string) {
    modelo in options && modelo != ""
  }

  /** The models kept when a brand is unchecked. */
  function KeptModelos(modelos: Option<seq<string>>, options: seq<string>, marcas: seq<string>): seq<string> {
    Filter(modelos.GetOr([]), (m: string) => Offered(options, m) && |marcas| > 0)
  }

  /** What an input box gives: nothing for an empty box, else the number read. */
  function NumberInput(value: string, read: JsNumber): Option<JsNumber> {
    if value == "" then None else Some(read)
  }

  /** `parseInt` as a stored number. */
  function ParsedInt(value: string): JsNumber {
    var n := ParseInt(value);
    if n.Some? then Finite(n.value) else NaN
  }

  class FiltersPanel {
    /** `localFilters` */
    var localFilters: ClientFilters
    /** Every value handed to `onFiltersChange`, oldest first. */
    var changes: seq<ClientFilters>
    /** `filterOptions.modelos` */
    const modelosOptions: seq<string>

    constructor (filters: ClientFilters, modelosOptions: seq<string>)
      ensures localFilters == filters && changes == []
      ensures this.modelosOptions == modelosOptions
    {
      localFilters := filters;
      changes := [];
      this.modelosOptions := modelosOptions;
    }

    /** `setLocalFilters(updated); onFiltersChange(updated)` */
    method Publish(updated: ClientFilters)
      modifies this
      ensures localFilters == updated && changes == old(changes) + [updated]
    {
      localFilters := updated;
      changes := changes + [updated];
    }

    /** `handleMarcaChange` */
    method MarcaChange(marca: string, checked: bool)
      modifies this
      ensures var f := old(localFilters);
        var marcas := Toggled(f.marcas, marca, checked);
        localFilters == f.(marcas := Some(marcas),
                           modelos := if checked then f.modelos
                                      else Some(KeptModelos(f.modelos, modelosOptions, marcas)))
      ensures changes == old(changes) + [localFilters]
    {
      var newMarcas := Toggled(localFilters.marcas, marca, checked);
      var newModelos := if checked then localFilters.modelos
                        else Some(KeptModelos(localFilters.modelos, modelosOptions, newMarcas));
      Publish(localFilters.(marcas := Some(newMarcas), modelos := newModelos));
    }

    /** `handleModeloChange` */
    method ModeloChange(modelo: string, checked: bool)
      modifies this
      ensures localFilters == old(localFilters).(modelos := Some(Toggled(old(localFilters).modelos, modelo, checked)))
      ensures changes == old(changes) + [localFilters]
    {
      Publish(localFilters.(modelos := Some(Toggled(localFilters.modelos, modelo, checked))));
    }

    /** `handleCambioChange` */
    method CambioChange(cambio: string, checked: bool)
      modifies this
      ensures localFilters == old(localFilters).(cambios := Some(Toggled(old(localFilters).cambios, cambio, checked)))
      ensures changes == old(changes) + [localFilters]
    {
      Publish(localFilters.(cambios := Some(Toggled(localFilters.cambios, cambio, checked))));
    }

    /** `handleAnoMinChange` */
    method AnoMinChange(value: string)
      modifies this
      ensures localFilters == old(localFilters).(anoMin := NumberInput(value, ParsedInt(value)))
      ensures changes == old(changes) + [localFilters]
    {
      Publish(localFilters.(anoMin := NumberInput(value, ParsedInt(value))));
    }

    /** `handleAnoMaxChange` */
    method AnoMaxChange(value: string)
      modifies this
      ensures localFilters == old(localFilters).(anoMax := NumberInput(value, ParsedInt(value)))
      ensures changes == old(changes) + [localFilters]
    {
      Publish(localFilters.(anoMax := NumberInput(value, ParsedInt(value))));
    }

    /** `handlePrecoMinChange`; `parsed` is what `parseFloat(value)` reads. */
    method PrecoMinChange(value: string, parsed: JsNumber)
      modifies this
      ensures localFilters == old(localFilters).(precoMin := NumberInput(value, parsed))
      ensures changes == old(changes) + [localFilters]
    {
      Publish(localFilters.(precoMin := NumberInput(value, parsed)));
    }

    /** `handlePrecoMaxChange`; `parsed` is what `parseFloat(value)` reads. */
    method PrecoMaxChange(value: string, parsed: JsNumber)
      modifies this
      ensures localFilters == old(localFilters).(precoMax := NumberInput(value, parsed))
      ensures changes == old(changes) + [localFilters]
    {
      Publish(localFilters.(precoMax := NumberInput(value, parsed)));
    }
  }

  // ------------------------------------------------------------ properties

  lemma {:induction false} WithoutAbsent(xs: seq<string>, x: string)
    requires x !in xs
    ensures Without(xs, x) == xs
  {
    if xs != [] {
      WithoutAbsent(xs[1..], x);
      assert xs == [xs[0]] + xs[1..];
    }
  }

  lemma {:induction false} WithoutAppend(xs: seq<string>, ys: seq<string>, x: string)
    ensures Without(xs + ys, x) == Without(xs, x) + Without(ys, x)
  {
    if xs == [] {
      assert xs + ys == ys;
    } else {
      assert (xs + ys)[1..] == xs[1..] + ys;
      WithoutAppend(xs[1..], ys, x);
    }
  }

  /** Unchecking a value removes every occurrence of it and keeps the others
      in their order, each as often as before. */
  lemma {:induction false} WithoutCounts(xs: seq<string>, x: string)
    ensures multiset(Without(xs, x))[x] == 0
    ensures forall y :: y != x ==> multiset(Without(xs, x))[y] == multiset(xs)[y]
    ensures IsSubsequence(Without(xs, x), xs)
  {
    if xs != [] {
      WithoutCounts(xs[1..], x);
      assert xs == [xs[0]] + xs[1..];
    }
  }

  /** Checking a value not yet in the list, then unchecking it, gives the
      list back. */
  lemma CheckThenUncheck(xs: seq<string>, x: string)
    requires x !in xs
    ensures Toggled(Some(Toggled(Some(xs), x, true)), x, false) == xs
  {
    WithoutAppend(xs, [x], x);
    WithoutAbsent(xs, x);
  }

  /** Checking appends at the end, without looking for an earlier copy. */
  lemma CheckAppends(xs: seq<string>, x: string)
    ensures var r := Toggled(Some(xs), x, true);
      |r| == |xs| + 1 && r[|xs|] == x && r[..|xs|] == xs
  {
  }

  /** After a brand is unchecked, a model stays selected exactly when it was
      selected, is offered, and some brand is still selected. */
  lemma KeptModelosIff(modelos: seq<string>, options: seq<string>, marcas: seq<string>, m: string)
    ensures m in KeptModelos(Some(modelos), options, marcas) <==>
      m in modelos && m in options && m != "" && marcas != []
  {
  }

  /** Unchecking the only brand selected clears the models. */
  lemma UncheckLastBrand(marcas: seq<string>, marca: string, modelos: Option<seq<string>>, options: seq<string>)
    requires forall k :: 0 <= k < |marcas| ==> marcas[k] == marca
    ensures Toggled(Some(marcas), marca, false) == []
    ensures KeptModelos(modelos, options, Toggled(Some(marcas), marca, false)) == []
  {
    var r := Toggled(Some(marcas), marca, false);
    assert forall y :: y in marcas ==> y == marca;
  }

  /** A year typed as `String(n)` is stored as `n`; an emptied box clears
      the year. */
  lemma YearInputReads(n: int)
    ensures NumberInput(IntegerString(n), ParsedInt(IntegerString(n))) == Some(Finite(n))
    ensures NumberInput("", ParsedInt("")) == None
  {
    ParseIntIntegerString(n);
  }
}
