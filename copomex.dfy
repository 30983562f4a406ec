/** The postal-code address service (`CopomexService`): guarded lookups
    against the COPOMEX provider, address autocompletion from a postal code,
    and validation of an address against the provider's record.

    The provider is an oracle from a structured endpoint to what one GET
    produced; each lookup also reports the endpoints it requested, so
    "no request is issued" reads `requests == []`. */
module Copomex {
  import opened Wrappers
  import Text

  // ---------------------------------------------------------------------------
  // provider data

  /** A postal-code record, as the provider's simplified projection gives it. */
  datatype PostalCodeInfo = PostalCodeInfo(
    cp: string,
    asentamiento: seq<string>,
    tipoAsentamiento: string,
    municipio: string,
    estado: string,
    ciudad: string,
    pais: string)

  // Payloads of the list endpoints; a field the body lacks (or holds `null`) is `None`.
  datatype EstadosResponse = EstadosResponse(estado: Option<seq<string>>)
  datatype MunicipiosResponse = MunicipiosResponse(municipios: Option<seq<string>>)
  datatype ColoniasResponse = ColoniasResponse(colonia: Option<seq<string>>)
  datatype CodigosPostalesResponse = CodigosPostalesResponse(cp: Option<seq<string>>)

  /** The provider's envelope. */
  datatype CopomexResponse<T> = CopomexResponse(
    error: bool,
    codeError: int,
    errorMessage: Option<string>,
    response: Option<T>)

  /** What one GET produced: no answer at all, or an HTTP answer whose body
      is `None` when it is not a JSON envelope. */
  datatype Fetched<T> =
    | NetworkFailure
    | Answered(ok: bool, status: int, body: Option<CopomexResponse<T>>)

  /** The endpoints the service calls (the path before the access token). */
  datatype Endpoint =
    | AllEstados
    | MunicipiosOf(estado: string)
    | InfoCp(codigoPostal: string, simplified: bool)
    | SearchCp(busqueda: string, limit: int)
    | ColoniasOf(municipio: string)

  type Provider<T> = Endpoint -> Fetched<T>

  /** Why a request was rejected. */
  datatype RequestError =
    | Transport
    | HttpStatus(status: int)
    | MalformedBody
    | ProviderError(message: string)

  /** A lookup's result together with the endpoints it requested, in order. */
  datatype Lookup<R> = Lookup(value: R, requests: seq<Endpoint>)

  /** The provider answered with an ok status and a well-formed envelope
      whose error flag is clear. */
  predicate Delivered<T>(f: Fetched<T>) {
    f.Answered? && f.ok && f.body.Some? && !f.body.value.error
  }

  /** The envelope's payload when the answer was delivered, `None` otherwise. */
  function Delivery<T>(f: Fetched<T>): Option<T> {
    if Delivered(f) then f.body.value.response else None
  }

  // ---------------------------------------------------------------------------
  // makeRequest

  /** `makeRequest`: one GET; a non-ok status, a body that is not JSON, or an
      envelope with its error flag set becomes a rejection. */
  function MakeRequest<T>(provider: Provider<T>, endpoint: Endpoint): (r: Result<CopomexResponse<T>, RequestError>)
    ensures r.Success? <==> Delivered(provider(endpoint))
    ensures r.Success? ==> Some(r.value) == provider(endpoint).body
    ensures provider(endpoint).NetworkFailure? ==> r == Failure(Transport)
    // the status is checked before the body is looked at
    ensures provider(endpoint).Answered? && !provider(endpoint).ok ==> r == Failure(HttpStatus(provider(endpoint).status))
    ensures var f := provider(endpoint);
      f.Answered? && f.ok && f.body.Some? && f.body.value.error ==>
        r == Failure(ProviderError(ProviderErrorText(f.body.value)))
  {
    match provider(endpoint)
    case NetworkFailure => Failure(Transport)
    case Answered(ok, status, body) =>
      if !ok then Failure(HttpStatus(status))
      else if body.None? then Failure(MalformedBody)
      else if body.value.error then Failure(ProviderError(ProviderErrorText(body.value)))
      else Success(body.value)
  }

  /** `error_message || 'Error <code_error>'`: the message when it is a
      non-empty string, otherwise the code. */
  function ProviderErrorText<T>(env: CopomexResponse<T>): (m: string)
    ensures env.errorMessage.Some? && env.errorMessage.value != "" ==> m == env.errorMessage.value
    ensures env.errorMessage.None? || env.errorMessage.value == "" ==> m == "Error " + Text.IntToString(env.codeError)
  {
    match env.errorMessage
    case Some(msg) => if msg != "" then msg else "Error " + Text.IntToString(env.codeError)
    case None => "Error " + Text.IntToString(env.codeError)
  }

  /** The payload of an accepted request; every rejection reads as `None`. */
  function Payload<T>(r: Result<CopomexResponse<T>, RequestError>): Option<T> {
    if r.Success? then r.value.response else None
  }

  // ---------------------------------------------------------------------------
  // list lookups

  /** `getEstados`: the provider's state list; `[]` on any failure or missing field. */
  function GetEstados(provider: Provider<EstadosResponse>): (r: Lookup<seq<string>>)
    ensures r.requests == [AllEstados]
    ensures var d := Delivery(provider(AllEstados));
      d.Some? && d.value.estado.Some? ==> r.value == d.value.estado.value
    ensures var d := Delivery(provider(AllEstados));
      d.None? || d.value.estado.None? ==> r.value == []
  {
    var payload: Option<EstadosResponse> := Payload(MakeRequest(provider, AllEstados));
    var list := match payload
      case Some(EstadosResponse(Some(xs))) => xs
      case _ => [];
    Lookup(list, [AllEstados])
  }

  /** `getMunicipiosPorEstado`: no request for a blank state; otherwise the
      provider's municipality list, `[]` on any failure or missing field. */
  function GetMunicipiosPorEstado(provider: Provider<MunicipiosResponse>, estado: string): (r: Lookup<seq<string>>)
    ensures Text.AllSpace(estado) ==> r == Lookup([], [])
    ensures !Text.AllSpace(estado) ==> r.requests == [MunicipiosOf(estado)]
    ensures var d := Delivery(provider(MunicipiosOf(estado)));
      !Text.AllSpace(estado) && d.Some? && d.value.municipios.Some? ==> r.value == d.value.municipios.value
    ensures var d := Delivery(provider(MunicipiosOf(estado)));
      d.None? || d.value.municipios.None? ==> r.value == []
  {
    Text.TrimEmptyIff(estado);
    if Text.Trim(estado) == "" then Lookup([], [])
    else
      var ep := MunicipiosOf(estado);
      var payload: Option<MunicipiosResponse> := Payload(MakeRequest(provider, ep));
      var list := match payload
        case Some(MunicipiosResponse(Some(xs))) => xs
        case _ => [];
      Lookup(list, [ep])
  }

  /** `getInfoCodigoPostal`: only the length is checked (not that the
      characters are digits), in UTF-16 code units as `length` counts; a code
      that is not exactly five units long gets `null` with no request, and
      every failure of the lookup ends as `null` too. */
  function GetInfoCodigoPostal(provider: Provider<PostalCodeInfo>, codigoPostal: string, simplified: bool): (r: Lookup<Option<PostalCodeInfo>>)
    ensures Text.Utf16Length(codigoPostal) != 5 ==> r == Lookup(None, [])
    ensures Text.Utf16Length(codigoPostal) == 5 ==> r.requests == [InfoCp(codigoPostal, simplified)]
    ensures r.value.Some? ==>
      Text.Utf16Length(codigoPostal) == 5 && Delivered(provider(InfoCp(codigoPostal, simplified)))
    ensures Text.Utf16Length(codigoPostal) == 5 ==> r.value == Delivery(provider(InfoCp(codigoPostal, simplified)))
  {
    if codigoPostal == "" || Text.Utf16Length(codigoPostal) != 5 then Lookup(None, [])
    else
      var ep := InfoCp(codigoPostal, simplified);
      Lookup(Payload(MakeRequest(provider, ep)), [ep])
  }

  /** `buscarCodigosPostales`: no request for a fragment shorter than two
      UTF-16 code units; otherwise the provider's list as it comes. The limit
      defaults to 10 and is only forwarded, never applied here. */
  function BuscarCodigosPostales(provider: Provider<CodigosPostalesResponse>, busqueda: string, limit: Option<int>): (r: Lookup<seq<string>>)
    ensures Text.Utf16Length(busqueda) < 2 ==> r == Lookup([], [])
    ensures Text.Utf16Length(busqueda) >= 2 ==> r.requests == [SearchCp(busqueda, limit.GetOr(10))]
    ensures var d := Delivery(provider(SearchCp(busqueda, limit.GetOr(10))));
      Text.Utf16Length(busqueda) >= 2 && d.Some? && d.value.cp.Some? ==> r.value == d.value.cp.value
    ensures var d := Delivery(provider(SearchCp(busqueda, limit.GetOr(10))));
      d.None? || d.value.cp.None? ==> r.value == []
  {
    if busqueda == "" || Text.Utf16Length(busqueda) < 2 then Lookup([], [])
    else
      var ep := SearchCp(busqueda, limit.GetOr(10));
      var payload: Option<CodigosPostalesResponse> := Payload(MakeRequest(provider, ep));
      var list := match payload
        case Some(CodigosPostalesResponse(Some(xs))) => xs
        case _ => [];
      Lookup(list, [ep])
  }

  /** `getColoniasPorMunicipio`: no request for a blank municipality;
      otherwise the provider's neighbourhood list, `[]` on any failure or
      missing field. */
  function GetColoniasPorMunicipio(provider: Provider<ColoniasResponse>, municipio: string): (r: Lookup<seq<string>>)
    ensures Text.AllSpace(municipio) ==> r == Lookup([], [])
    ensures !Text.AllSpace(municipio) ==> r.requests == [ColoniasOf(municipio)]
    ensures var d := Delivery(provider(ColoniasOf(municipio)));
      !Text.AllSpace(municipio) && d.Some? && d.value.colonia.Some? ==> r.value == d.value.colonia.value
    ensures var d := Delivery(provider(ColoniasOf(municipio)));
      d.None? || d.value.colonia.None? ==> r.value == []
  {
    Text.TrimEmptyIff(municipio);
    if Text.Trim(municipio) == "" then Lookup([], [])
    else
      var ep := ColoniasOf(municipio);
      var payload: Option<ColoniasResponse> := Payload(MakeRequest(provider, ep));
      var list := match payload
        case Some(ColoniasResponse(Some(xs))) => xs
        case _ => [];
      Lookup(list, [ep])
  }

  /** The search result is the provider's list even when it is longer than
      the requested limit. */
  lemma SearchIsNotTruncated()
    ensures var p: Provider<CodigosPostalesResponse> := ep =>
        Answered(true, 200, Some(CopomexResponse(false, 0, None, Some(CodigosPostalesResponse(Some(["97000", "97100", "97200"]))))));
      |BuscarCodigosPostales(p, "97", Some(1)).value| == 3
  {
    Text.Utf16LengthBmp("97");
  }

  // ---------------------------------------------------------------------------
  // autocompletion

  /** The fields `autocompletarDireccion` fills in. */
  datatype Autocompletado = Autocompletado(estado: string, municipio: string, ciudad: string, colonias: seq<string>)

  /** `autocompletarDireccion`: `null` exactly when the postal-code lookup is
      `null`; otherwise state, municipality and city copied from the record
      and the neighbourhood options equal to its settlements. */
  function AutocompletarDireccion(provider: Provider<PostalCodeInfo>, codigoPostal: string): (r: Lookup<Option<Autocompletado>>)
    ensures var info := GetInfoCodigoPostal(provider, codigoPostal, true);
      && r.requests == info.requests
      && (r.value.None? <==> info.value.None?)
      && (info.value.Some? ==>
            && r.value.value.estado == info.value.value.estado
            && r.value.value.municipio == info.value.value.municipio
            && r.value.value.ciudad == info.value.value.ciudad
            && |r.value.value.colonias| == |info.value.value.asentamiento|
            && forall k :: 0 <= k < |r.value.value.colonias| ==>
                 r.value.value.colonias[k] == info.value.value.asentamiento[k])
  {
    var info := GetInfoCodigoPostal(provider, codigoPostal, true);
    match info.value
    case None => Lookup(None, info.requests)
    case Some(rec) =>
      Lookup(Some(Autocompletado(rec.estado, rec.municipio, rec.ciudad, rec.asentamiento)), info.requests)
  }

  // ---------------------------------------------------------------------------
  // validation

  /** The address a caller asks to validate. */
  datatype Direccion = Direccion(
    calle: string,
    numero: string,
    codigoPostal: string,
    colonia: string,
    municipio: string,
    estado: string)

  /** `{ valida, errores, sugerencias? }`. */
  datatype Validacion = Validacion(valida: bool, errores: seq<string>, sugerencias: Option<PostalCodeInfo>)

  const CodigoPostalNoValido := "Código postal no válido"

  function EstadoNoCoincide(info: PostalCodeInfo): string {
    "El estado no coincide. Debería ser: " + info.estado
  }

  function MunicipioNoCoincide(info: PostalCodeInfo): string {
    "El municipio no coincide. Debería ser: " + info.municipio + " o " + info.ciudad
  }

  function ColoniaNoCoincide(info: PostalCodeInfo): string {
    "La colonia no coincide. Opciones válidas: " + Text.Join(info.asentamiento, ", ")
  }

  /** `a` and `b` agree once both are lower-cased with `lower`. */
  predicate SameIgnoringCase(lower: string -> string, a: string, b: string) {
    lower(a) == lower(b)
  }

  /** One comparison of the validation: whether it passed, and the message
      reported when it did not. */
  datatype Check = Check(passed: bool, message: string)

  /** The three comparisons, in the order they are reported: the state; the
      municipality, which may match the record's municipality or its city;
      and the neighbourhood, which must match one of the settlements. */
  function Checks(lower: string -> string, info: PostalCodeInfo, d: Direccion): seq<Check> {
    [ Check(SameIgnoringCase(lower, info.estado, d.estado), EstadoNoCoincide(info)),
      Check(SameIgnoringCase(lower, info.municipio, d.municipio) || SameIgnoringCase(lower, info.ciudad, d.municipio),
            MunicipioNoCoincide(info)),
      Check(exists k :: 0 <= k < |info.asentamiento| && SameIgnoringCase(lower, info.asentamiento[k], d.colonia),
            ColoniaNoCoincide(info)) ]
  }

  /** The messages of the checks that failed, in check order. */
  function FailedMessages(checks: seq<Check>): (r: seq<string>)
    ensures |r| <= |checks|
  {
    if checks == [] then []
    else (if checks[0].passed then [] else [checks[0].message]) + FailedMessages(checks[1..])
  }

  /** The errors a successful lookup of `info` yields for `d`. */
  function Mismatches(lower: string -> string, info: PostalCodeInfo, d: Direccion): seq<string> {
    FailedMessages(Checks(lower, info, d))
  }

  /** The errors spelled out: at most one per comparison, state first,
      municipality second, neighbourhood last. */
  lemma {:induction false} MismatchesInOrder(lower: string -> string, info: PostalCodeInfo, d: Direccion)
    ensures Mismatches(lower, info, d) ==
      (if SameIgnoringCase(lower, info.estado, d.estado) then [] else [EstadoNoCoincide(info)])
      + (if SameIgnoringCase(lower, info.municipio, d.municipio) || SameIgnoringCase(lower, info.ciudad, d.municipio)
         then [] else [MunicipioNoCoincide(info)])
      + (if exists k :: 0 <= k < |info.asentamiento| && SameIgnoringCase(lower, info.asentamiento[k], d.colonia)
         then [] else [ColoniaNoCoincide(info)])
  {
    var cs := Checks(lower, info, d);
    assert cs[1..] == [cs[1], cs[2]];
    assert cs[1..][1..] == [cs[2]];
    assert cs[1..][1..][1..] == [];
    assert FailedMessages(cs[1..][1..]) == (if cs[2].passed then [] else [cs[2].message]);
    assert FailedMessages(cs[1..]) == (if cs[1].passed then [] else [cs[1].message]) + FailedMessages(cs[1..][1..]);
    assert FailedMessages(cs) == (if cs[0].passed then [] else [cs[0].message]) + FailedMessages(cs[1..]);
  }

  /** `validarDireccion`: looks the postal code up; with no record the
      address is invalid with the single error 'Código postal no válido' and
      no suggestion (street and number are never examined, and a failed
      transport reads the same as an unknown code); with a record, one error
      per failed comparison, in order, the record as suggestion, and
      `valida` exactly when no error was reported. */
  method ValidarDireccion(provider: Provider<PostalCodeInfo>, lower: string -> string, d: Direccion)
    returns (res: Validacion, requests: seq<Endpoint>)
    ensures var lookup := GetInfoCodigoPostal(provider, d.codigoPostal, true);
      && requests == lookup.requests
      && (lookup.value.None? ==> res == Validacion(false, [CodigoPostalNoValido], None))
      && (lookup.value.Some? ==>
            res.sugerencias == lookup.value && res.errores == Mismatches(lower, lookup.value.value, d))
    ensures res.valida <==> res.errores == []
  {
    var errores: seq<string> := [];
    var sugerencias: Option<PostalCodeInfo> := None;
    var lookup := GetInfoCodigoPostal(provider, d.codigoPostal, true);
    requests := lookup.requests;
    if lookup.value.None? {
      errores := errores + [CodigoPostalNoValido];
      return Validacion(false, errores, None), requests;
    }
    var infoCP := lookup.value.value;
    sugerencias := Some(infoCP);
    if lower(infoCP.estado) != lower(d.estado) {
      errores := errores + [EstadoNoCoincide(infoCP)];
    }
    if lower(infoCP.municipio) != lower(d.municipio) && lower(infoCP.ciudad) != lower(d.municipio) {
      errores := errores + [MunicipioNoCoincide(infoCP)];
    }
    var coloniaValida := exists k :: 0 <= k < |infoCP.asentamiento| && lower(infoCP.asentamiento[k]) == lower(d.colonia);
    if !coloniaValida {
      errores := errores + [ColoniaNoCoincide(infoCP)];
    }
    MismatchesInOrder(lower, infoCP, d);
    res := Validacion(|errores| == 0, errores, sugerencias);
  }

  // ---------------------------------------------------------------------------
  // properties of the validation

  /** The three messages differ from each other (and from the postal-code one),
      so each can be looked for by value. */
  lemma MessagesDistinct(info: PostalCodeInfo)
    ensures EstadoNoCoincide(info) != MunicipioNoCoincide(info)
    ensures EstadoNoCoincide(info) != ColoniaNoCoincide(info)
    ensures MunicipioNoCoincide(info) != ColoniaNoCoincide(info)
    ensures CodigoPostalNoValido !in [EstadoNoCoincide(info), MunicipioNoCoincide(info), ColoniaNoCoincide(info)]
  {
    assert EstadoNoCoincide(info)[3] == 'e';
    assert MunicipioNoCoincide(info)[3] == 'm';
    assert ColoniaNoCoincide(info)[0] == 'L';
    assert EstadoNoCoincide(info)[0] == 'E' && MunicipioNoCoincide(info)[0] == 'E';
    assert CodigoPostalNoValido[0] == 'C';
  }

  /** An address is valid for a record exactly when the state matches, the
      municipality matches the record's municipality or its city, and the
      neighbourhood matches one of the settlements (all ignoring case). */
  lemma ValidIffEveryCheckPasses(lower: string -> string, info: PostalCodeInfo, d: Direccion)
    ensures Mismatches(lower, info, d) == [] <==>
      && SameIgnoringCase(lower, info.estado, d.estado)
      && (SameIgnoringCase(lower, info.municipio, d.municipio) || SameIgnoringCase(lower, info.ciudad, d.municipio))
      && (exists k :: 0 <= k < |info.asentamiento| && SameIgnoringCase(lower, info.asentamiento[k], d.colonia))
  {
    MismatchesInOrder(lower, info, d);
  }

  /** Every message appears at most once. */
  lemma AtMostOneErrorEach(lower: string -> string, info: PostalCodeInfo, d: Direccion)
    ensures |Mismatches(lower, info, d)| <= 3
    ensures multiset(Mismatches(lower, info, d))[EstadoNoCoincide(info)] <= 1
    ensures multiset(Mismatches(lower, info, d))[MunicipioNoCoincide(info)] <= 1
    ensures multiset(Mismatches(lower, info, d))[ColoniaNoCoincide(info)] <= 1
  {
    MismatchesInOrder(lower, info, d);
    MessagesDistinct(info);
  }

  /** The municipality is accepted when it matches the record's city, even
      if it differs from the record's municipality. */
  lemma MunicipioFallsBackToCiudad(lower: string -> string, info: PostalCodeInfo, d: Direccion)
    requires SameIgnoringCase(lower, info.ciudad, d.municipio)
    ensures MunicipioNoCoincide(info) !in Mismatches(lower, info, d)
  {
    MismatchesInOrder(lower, info, d);
    MessagesDistinct(info);
  }

  /** The state is reported exactly when it differs from the record's. */
  lemma EstadoReportedIffDifferent(lower: string -> string, info: PostalCodeInfo, d: Direccion)
    ensures EstadoNoCoincide(info) in Mismatches(lower, info, d) <==> !SameIgnoringCase(lower, info.estado, d.estado)
  {
    MismatchesInOrder(lower, info, d);
    MessagesDistinct(info);
  }

  /** A neighbourhood that matches no settlement yields the last error, which
      lists every settlement verbatim, joined by ', '. */
  lemma ColoniaMismatchListsOptions(lower: string -> string, info: PostalCodeInfo, d: Direccion, i: nat)
    requires forall k :: 0 <= k < |info.asentamiento| ==> !SameIgnoringCase(lower, info.asentamiento[k], d.colonia)
    requires i < |info.asentamiento|
    ensures var m := Mismatches(lower, info, d);
      && m != [] && m[|m| - 1] == ColoniaNoCoincide(info)
      && Text.OccursAt(info.asentamiento[i], m[|m| - 1],
           |"La colonia no coincide. Opciones válidas: "| + Text.JoinOffset(info.asentamiento, ", ", i))
  {
    MismatchesInOrder(lower, info, d);
    var prefix := "La colonia no coincide. Opciones válidas: ";
    var joined := Text.Join(info.asentamiento, ", ");
    Text.JoinListsEveryPart(info.asentamiento, ", ", i);
    var k := Text.JoinOffset(info.asentamiento, ", ", i);
    var msg := ColoniaNoCoincide(info);
    assert msg == prefix + joined;
    assert msg[|prefix| + k..|prefix| + k + |info.asentamiento[i]|] == joined[k..k + |info.asentamiento[i]|];
  }

  // ---------------------------------------------------------------------------
  // a worked example: postal code 97205

  function Record97205(): PostalCodeInfo {
    PostalCodeInfo("97205", ["Itzimná", "Centro"], "Colonia", "Mérida", "Yucatán", "Mérida", "México")
  }

  /** A provider that knows one postal code and fails for everything else. */
  function Provider97205(): Provider<PostalCodeInfo> {
    ep => if ep == InfoCp("97205", true)
          then Answered(true, 200, Some(CopomexResponse(false, 0, None, Some(Record97205()))))
          else NetworkFailure
  }

  /** Autocompletion from 97205 copies the record and offers both settlements. */
  lemma Autocomplete97205()
    ensures AutocompletarDireccion(Provider97205(), "97205").value
      == Some(Autocompletado("Yucatán", "Mérida", "Mérida", ["Itzimná", "Centro"]))
  {
  }

  /** The Latin-1 fold on the words of the example. */
  lemma LatinLowerOfYucatan()
    ensures Text.LatinLower("Yucatán") == "yucatán" && Text.LatinLower("yucatán") == "yucatán"
  {
  }

  lemma LatinLowerOfMerida()
    ensures Text.LatinLower("Mérida") == "mérida" && Text.LatinLower("mérida") == "mérida"
    ensures Text.LatinLower("merida") == "merida"
  {
  }

  lemma LatinLowerOfCentro()
    ensures Text.LatinLower("Centro") == "centro" && Text.LatinLower("centro") == "centro"
  {
  }

  /** 'yucatán', 'mérida' and 'centro' are accepted for 97205: case is folded. */
  lemma Validation97205Accepted()
    ensures Mismatches(Text.LatinLower, Record97205(), Direccion("Calle 20", "100", "97205", "centro", "mérida", "yucatán")) == []
  {
    var rec := Record97205();
    var d := Direccion("Calle 20", "100", "97205", "centro", "mérida", "yucatán");
    LatinLowerOfYucatan();
    LatinLowerOfMerida();
    LatinLowerOfCentro();
    assert SameIgnoringCase(Text.LatinLower, rec.asentamiento[1], d.colonia);
    ValidIffEveryCheckPasses(Text.LatinLower, rec, d);
  }

  /** 'merida' without its accent is rejected for 97205: accents are not folded. */
  lemma Validation97205AccentMatters()
    ensures Mismatches(Text.LatinLower, Record97205(), Direccion("Calle 20", "100", "97205", "centro", "merida", "yucatán"))
      == [MunicipioNoCoincide(Record97205())]
  {
    var rec := Record97205();
    var d := Direccion("Calle 20", "100", "97205", "centro", "merida", "yucatán");
    LatinLowerOfYucatan();
    LatinLowerOfMerida();
    LatinLowerOfCentro();
    assert SameIgnoringCase(Text.LatinLower, rec.estado, d.estado);
    assert !SameIgnoringCase(Text.LatinLower, rec.municipio, d.municipio) by {
      assert "mérida"[1] != "merida"[1];
    }
    assert rec.ciudad == rec.municipio;
    assert SameIgnoringCase(Text.LatinLower, rec.asentamiento[1], d.colonia);
    MismatchesInOrder(Text.LatinLower, rec, d);
  }

  /** A postal code that is five characters but not digits still reaches the
      provider: the guard looks only at the length. */
  lemma LengthIsTheOnlyGuard(provider: Provider<PostalCodeInfo>)
    ensures GetInfoCodigoPostal(provider, "abcde", true).requests == [InfoCp("abcde", true)]
    ensures GetInfoCodigoPostal(provider, "9720", true) == Lookup(None, [])
  {
    Text.Utf16LengthBmp("abcde");
    Text.Utf16LengthBmp("9720");
  }

  /** The guards count UTF-16 code units, as JavaScript's `length` does: a
      character outside the Basic Multilingual Plane counts twice. Four
      digits and an emoji are six units, so no request is made; a lone
      emoji is two units, so the search is sent. */
  lemma GuardsCountUtf16Units(info: Provider<PostalCodeInfo>, search: Provider<CodigosPostalesResponse>)
    ensures GetInfoCodigoPostal(info, "9720\U{1F600}", true) == Lookup(None, [])
    ensures BuscarCodigosPostales(search, "\U{1F600}", None).requests == [SearchCp("\U{1F600}", 10)]
  {
    Text.Utf16LengthBmp("9720");
    assert "9720\U{1F600}"[1..] == "720\U{1F600}";
    assert "720\U{1F600}"[1..] == "20\U{1F600}";
    assert "20\U{1F600}"[1..] == "0\U{1F600}";
    assert "0\U{1F600}"[1..] == "\U{1F600}";
    assert "\U{1F600}"[1..] == "";
  }

  /** A delivery failure and an unknown code both read as no record, so the
      validation cannot tell them apart. */
  lemma TransportFailureLooksLikeUnknownCode(p1: Provider<PostalCodeInfo>, p2: Provider<PostalCodeInfo>, cp: string)
    requires Text.Utf16Length(cp) == 5
    requires p1(InfoCp(cp, true)) == NetworkFailure
    requires p2(InfoCp(cp, true)).Answered? && p2(InfoCp(cp, true)).ok
    requires p2(InfoCp(cp, true)).body == Some(CopomexResponse(false, 0, None, None))
    ensures GetInfoCodigoPostal(p1, cp, true) == GetInfoCodigoPostal(p2, cp, true)
  {
  }
}
