/**
 * The screen state of the weather component and `fetchClima`, which updates
 * it step by step: validate the province, raise `loading`, store a result
 * or clear it, and lower `loading` in `finally`.
 */
module ClimaApp {
  import opened Wrappers
  import opened Text
  import opened Provinces
  import opened Weather
  import opened Icons

  /** The three `Alert.alert` calls of `fetchClima`. */
  datatype Alert = InvalidProvince | NoWeatherData | FetchProblem

  function AlertTitle(a: Alert): string
  {
    match a
    case InvalidProvince => "Error"
    case NoWeatherData => "Información"
    case FetchProblem => "Error"
  }

  function AlertMessage(a: Alert): string
  {
    match a
    case InvalidProvince => "Por favor, ingresa una provincia andaluza válida"
    case NoWeatherData => "No se encontraron datos de clima para esta provincia."
    case FetchProblem => "Hubo un problema al obtener el clima. Inténtelo de nuevo"
  }

  /** The user can tell the three alerts apart: the "no data" alert differs from the transport-failure alert in title and in message. */
  lemma AlertsDistinct()
    ensures AlertTitle(NoWeatherData) != AlertTitle(FetchProblem)
    ensures forall a, b :: a != b ==> AlertMessage(a) != AlertMessage(b)
  {
  }

  /** One `axios.get` for a province code, with whether the loading indicator was up when it went out. */
  datatype Request = Request(code: string, loadingShown: bool)

  /** The icon shown by the screen: none while `tiempo` is null, else the lookup with its default. */
  function ShownIcon(tiempo: Option<Tiempo>): (r: Option<Icon>)
    ensures r.Some? <==> tiempo.Some?
  {
    match tiempo
    case None => None
    case Some(t) => Some(IconFor(t.description))
  }

  /** Lowercasing is what makes the icon match: a payload description "SOLEADO" or "Soleado" shows the sunny icon. */
  lemma CapitalisedDescriptionShowsIcon(r: Response)
    requires Classify(r).Accepted?
    requires ToLower(r.data.value.stateSky.value.description.value.text) == "soleado"
    ensures ShownIcon(Some(Classify(r).tiempo)) == Some(Sunny)
  {
    AcceptedFields(r);
  }

  /** The outcome of one request, as the screen records it in `tiempo` and in the alerts. */
  ghost predicate Settled(o: Outcome, tiempo: Option<Tiempo>, before: seq<Alert>, after: seq<Alert>)
  {
    match o
    case Accepted(t) => tiempo == Some(t) && after == before
    case NoData => tiempo == None && after == before + [NoWeatherData]
    case Failed => tiempo == None && after == before + [FetchProblem]
  }

  class ClimaScreen {
    /** The text typed into the province field. */
    var provincia: string
    /** The weather shown, or null. */
    var tiempo: Option<Tiempo>
    /** Whether "Cargando..." is shown. */
    var loading: bool
    /** Every alert raised so far, in order. */
    var alerts: seq<Alert>
    /** Every request issued so far, in order. */
    var requests: seq<Request>

    /** A stored description is always a non-empty lowercase string, usable as an icon key. */
    ghost predicate Valid()
      reads this
    {
      tiempo.Some? ==> tiempo.value.description != [] && IsLowerCase(tiempo.value.description)
    }

    /** The initial state: empty field, no weather, not loading. */
    constructor ()
      ensures Valid()
      ensures provincia == "" && tiempo == None && !loading
      ensures alerts == [] && requests == []
    {
      provincia := "";
      tiempo := None;
      loading := false;
      alerts := [];
      requests := [];
    }

    /** `setProvincia`, called as the user types. */
    method SetProvincia(text: string)
      requires Valid()
      modifies this
      ensures Valid()
      ensures provincia == text
      ensures unchanged(this`tiempo, this`loading, this`alerts, this`requests)
    {
      provincia := text;
    }

    /**
     * Resolve the trimmed text; on an unknown name raise the validation
     * alert and leave everything else alone, otherwise raise `loading`.
     */
    method Begin() returns (codigo: Option<string>)
      requires Valid()
      modifies this
      ensures Valid()
      ensures codigo == Resolve(provincia)
      ensures codigo.None? ==> alerts == old(alerts) + [InvalidProvince] && loading == old(loading)
      ensures codigo.Some? ==> alerts == old(alerts) && loading
      ensures unchanged(this`provincia, this`tiempo, this`requests)
    {
      codigo := Resolve(provincia);
      if codigo.None? {
        alerts := alerts + [InvalidProvince];
        return;
      }
      loading := true;
    }

    /** Issue the single request for `codigo`; `server` stands for the provider and the network. */
    method Send(codigo: string, server: string -> Response) returns (response: Response)
      requires Valid()
      modifies this
      ensures Valid()
      ensures response == server(codigo)
      ensures requests == old(requests) + [Request(codigo, loading)]
      ensures unchanged(this`provincia, this`tiempo, this`loading, this`alerts)
    {
      requests := requests + [Request(codigo, loading)];
      response := server(codigo);
    }

    /** The `try`/`catch`/`finally` after the response: store the result or clear it, then lower `loading`. */
    method Finish(response: Response)
      requires Valid()
      modifies this
      ensures Valid()
      ensures Settled(Classify(response), tiempo, old(alerts), alerts)
      ensures !loading
      ensures unchanged(this`provincia, this`requests)
    {
      var outcome := Classify(response);
      match outcome {
        case Accepted(t) =>
          AcceptedFields(response);
          tiempo := Some(t);
        case NoData =>
          alerts := alerts + [NoWeatherData];
          tiempo := None;
        case Failed =>
          alerts := alerts + [FetchProblem];
          tiempo := None;
      }
      loading := false;
    }

    /**
     * `fetchClima`. An unknown province raises the validation alert and
     * returns early: no request, `tiempo` and `loading` untouched. A known one
     * issues exactly one request while `loading` is up, ends with `loading`
     * down whatever happened, and leaves `tiempo` holding the accepted result
     * or null.
     */
    method FetchClima(server: string -> Response)
      requires Valid()
      modifies this
      ensures Valid()
      ensures unchanged(this`provincia)
      ensures Resolve(provincia).None? ==>
        && alerts == old(alerts) + [InvalidProvince]
        && unchanged(this`tiempo, this`loading, this`requests)
      ensures Resolve(provincia).Some? ==>
        var codigo := Resolve(provincia).value;
        && requests == old(requests) + [Request(codigo, true)]
        && Settled(Classify(server(codigo)), tiempo, old(alerts), alerts)
        && !loading
    {
      var codigo := Begin();
      if codigo.None? {
        return;
      }
      var response := Send(codigo.value, server);
      Finish(response);
    }
  }

  /** Whatever the provider answers, a known province leaves `tiempo` null or holding a complete record built from the payload. */
  lemma StoredResultComplete(o: Outcome, tiempo: Option<Tiempo>, before: seq<Alert>, after: seq<Alert>, r: Response)
    requires o == Classify(r) && Settled(o, tiempo, before, after)
    ensures tiempo.None? || (r.Body? && r.data.Some? && HasWeather(r.data.value))
    ensures tiempo.Some? ==> tiempo.value.description != [] && ToLower(tiempo.value.description) == tiempo.value.description
    ensures tiempo.None? <==> |after| == |before| + 1
  {
    if o.Accepted? {
      AcceptedFields(r);
    }
  }

  /** A screen walk-through: typing " Sevilla " and fetching asks for code "41" and shows the answer. */
  method SevillaScenario(server: string -> Response) returns (screen: ClimaScreen)
    requires Classify(server("41")).Accepted?
    ensures screen.requests == [Request("41", true)]
    ensures screen.tiempo == Some(Classify(server("41")).tiempo)
    ensures !screen.loading && screen.alerts == []
  {
    screen := new ClimaScreen();
    screen.SetProvincia(" Sevilla ");
    ResolveSevillaPadded();
    screen.FetchClima(server);
  }
}
