/**
 * What `fetchClima` does with the provider's answer: the presence check on
 * the flat payload shape, the construction of the `{tempMax, tempMin,
 * description}` record with the description lowercased, and the two kinds
 * of failure.
 */
module Weather {
  import opened Wrappers
  import opened Text

  /** A temperature as the provider sends it; it is copied through and never computed with. */
  datatype Temp = Temp(lexeme: string)

  /** `data.temperatures`; either bound may be missing (`undefined`). */
  datatype Temperatures = Temperatures(max: Option<Temp>, min: Option<Temp>)

  /** `data.stateSky.description`: a string, or some other JSON value that is truthy or falsy. */
  datatype Description = Str(text: string) | NonText(truthy: bool)

  /** `data.stateSky`; its description may be missing. */
  datatype StateSky = StateSky(description: Option<Description>)

  /** The flat response body: a field that is missing or falsy is None. */
  datatype Payload = Payload(temperatures: Option<Temperatures>, stateSky: Option<StateSky>)

  /** What the request yields: a rejected request, or a response whose `data` may be `null`/`undefined` (None). */
  datatype Response = TransportFailure | Body(data: Option<Payload>)

  /** The value stored in `tiempo` on success. */
  datatype Tiempo = Tiempo(tempMax: Option<Temp>, tempMin: Option<Temp>, description: string)

  /** How one request ends: a result, the "no data" branch, or the `catch` branch. */
  datatype Outcome = Accepted(tiempo: Tiempo) | NoData | Failed

  /** JavaScript truthiness of the description value. */
  predicate Truthy(d: Description)
  {
    match d
    case Str(s) => s != []
    case NonText(t) => t
  }

  /** The guard `data.temperatures && data.stateSky && data.stateSky.description`. */
  predicate HasWeather(p: Payload)
  {
    p.temperatures.Some? && p.stateSky.Some? &&
    p.stateSky.value.description.Some? && Truthy(p.stateSky.value.description.value)
  }

  /**
   * The body of the `try` with its `catch`: a rejected request, a `null`
   * body (reading `.temperatures` of it throws) and a truthy description
   * that is not a string (it has no `toLowerCase`) all end in the `catch`.
   */
  function Classify(r: Response): (o: Outcome)
    ensures o.Accepted? ==> o.tiempo.description != [] && IsLowerCase(o.tiempo.description)
  {
    match r
    case TransportFailure => Failed
    case Body(None) => Failed
    case Body(Some(p)) =>
      if !HasWeather(p) then NoData
      else
        match p.stateSky.value.description.value
        case Str(s) => Accepted(Tiempo(p.temperatures.value.max, p.temperatures.value.min, ToLower(s)))
        case NonText(_) => Failed
  }

  /**
   * A result is produced exactly when the body is present, `temperatures`
   * and `stateSky` are present and `stateSky.description` is a non-empty string.
   */
  lemma AcceptedIff(r: Response)
    ensures Classify(r).Accepted? <==>
      && r.Body? && r.data.Some?
      && r.data.value.temperatures.Some?
      && r.data.value.stateSky.Some?
      && r.data.value.stateSky.value.description.Some?
      && r.data.value.stateSky.value.description.value.Str?
      && r.data.value.stateSky.value.description.value.text != []
  {
  }

  /**
   * On acceptance the temperatures are copied unchanged and the description
   * is the lowercase of the payload's, non-empty, and lowering it again
   * changes nothing.
   */
  lemma AcceptedFields(r: Response)
    requires Classify(r).Accepted?
    ensures Classify(r).tiempo.tempMax == r.data.value.temperatures.value.max
    ensures Classify(r).tiempo.tempMin == r.data.value.temperatures.value.min
    ensures Classify(r).tiempo.description == ToLower(r.data.value.stateSky.value.description.value.text)
    ensures Classify(r).tiempo.description != []
    ensures ToLower(Classify(r).tiempo.description) == Classify(r).tiempo.description
  {
    ToLowerIdempotent(r.data.value.stateSky.value.description.value.text);
  }

  /** A present body that fails the guard, e.g. a missing field or an empty description, is "no data", and only such a body is. */
  lemma NoDataIff(r: Response)
    ensures Classify(r) == NoData <==> r.Body? && r.data.Some? && !HasWeather(r.data.value)
  {
  }

  /** An empty description string counts as missing. */
  lemma EmptyDescriptionIsNoData(t: Temperatures)
    ensures Classify(Body(Some(Payload(Some(t), Some(StateSky(Some(Str("")))))))) == NoData
  {
  }

  /** A transport failure always ends in the `catch` branch. */
  lemma TransportFailureFails()
    ensures Classify(TransportFailure) == Failed
  {
  }

  /** A payload with max 30, min 18 and "Soleado" is stored as 30, 18, "soleado". */
  lemma SoleadoExample()
    ensures Classify(Body(Some(Payload(
              Some(Temperatures(Some(Temp("30")), Some(Temp("18")))),
              Some(StateSky(Some(Str("Soleado"))))))))
         == Accepted(Tiempo(Some(Temp("30")), Some(Temp("18")), "soleado"))
  {
    var low := ToLower("Soleado");
    assert low[0] == 's';
    assert low == "soleado";
  }
}
