/**
 * The older REST controller of src/tradier_api/tradier_controllers.py. Its
 * throttle and error handler are those of the newer controller; it differs
 * in three places: the environment is matched as given, the URL is the
 * endpoint's template with its placeholders left in, and the `params`
 * argument is passed on as it is, None included.
 */
module LegacyControllers {

  import opened Values
  import opened Failures
  import Paths
  import Controllers

  /** `_get_base_url` without lowering: "Live" is refused. */
  function LegacyGetBaseUrl(environment: string): (r: Result<Paths.BaseUrl, Exc>)
    ensures r == Ok(Paths.Api) <==> environment == "live"
    ensures r == Ok(Paths.Sandbox) <==> environment == "sandbox" || environment == "paper"
    ensures r.Err? <==> environment !in {"live", "sandbox", "paper"}
    ensures r.Err? ==> r.error == ValueError("Invalid environment: " + environment)
  {
    if environment == "live" then Ok(Paths.Api)
    else if environment == "sandbox" || environment == "paper" then Ok(Paths.Sandbox)
    else Err(ValueError("Invalid environment: " + environment))
  }

  /**
   * The two controllers agree on lower-case names and on names they both
   * refuse; on a name with capitals the older one refuses what the newer
   * one may accept.
   */
  lemma CaseSensitivity(environment: string)
    ensures Controllers.Lower(environment) == environment ==>
      LegacyGetBaseUrl(environment) == Controllers.GetBaseUrl(environment)
    ensures LegacyGetBaseUrl(environment).Ok? ==>
      LegacyGetBaseUrl(environment) == Controllers.GetBaseUrl(environment)
  {
    if LegacyGetBaseUrl(environment).Ok? {
      var lowered := Controllers.Lower(environment);
      assert lowered == environment by {
        forall i | 0 <= i < |environment|
          ensures lowered[i] == environment[i]
        {
          assert environment[i] in "livesandboxpaper";
        }
      }
    }
  }

  /** "Live" picks the API in the newer controller and is refused by the older one. */
  lemma CapitalisedLive()
    ensures Controllers.GetBaseUrl("Live") == Ok(Paths.Api)
    ensures LegacyGetBaseUrl("Live") == Err(ValueError("Invalid environment: Live"))
  {
    assert Controllers.Lower("Live") == "live" by {
      var l := Controllers.Lower("Live");
      assert l[0] == Controllers.LowerChar('L') == 'l';
      assert l[1] == 'i' && l[2] == 'v' && l[3] == 'e';
    }
    assert "Live"[0] != "live"[0] && "Live" != "sandbox" && "Live" != "paper";
    assert "Invalid environment: " + "Live" == "Invalid environment: Live";
  }

  /** `_build_url(endpoint.path)`: the template, unformatted. */
  function LegacyUrl(base: Paths.BaseUrl, p: Paths.ApiPath): string
  {
    Controllers.BuildUrl(base, Paths.Template(p))
  }

  /** The URL keeps the template's placeholders, literally and in order. */
  lemma LegacyUrlKeepsPlaceholders(base: Paths.BaseUrl, p: Paths.ApiPath)
    ensures Paths.Placeholders(LegacyUrl(base, p)) == Paths.Slots(p)
  {
    var b := Paths.BaseUrlValue(base);
    assert '{' !in b by {
      match base {
        case Api =>
        case Sandbox =>
        case Stream =>
        case WebSocket =>
      }
    }
    Paths.SkipPlain(b, Paths.Template(p));
    Paths.PlaceholdersOfTemplate(p);
  }

  /** `params` as given goes as `params` for GET and DELETE, as `data` for POST and PUT. */
  function LegacyPlace(verb: string, params: Option<Dict>): (r: Controllers.Placement)
    ensures Controllers.InQuery(verb) ==> r.params == params
    ensures Controllers.InBody(verb) ==> r.data == params
    ensures !Controllers.InQuery(verb) ==> r.params.None?
    ensures !Controllers.InBody(verb) ==> r.data.None?
  {
    Controllers.Placement(if Controllers.InQuery(verb) then params else None,
                          if Controllers.InBody(verb) then params else None)
  }

  /**
   * Given a dict the two controllers place it alike; without one the newer
   * sends `{}` where the older sends None.
   */
  lemma PlacementsCompared(verb: string, params: Option<Dict>)
    ensures params.Some? ==> LegacyPlace(verb, params) == Controllers.Place(verb, params)
    ensures params.None? && Controllers.InQuery(verb) ==>
      LegacyPlace(verb, params).params.None? && Controllers.Place(verb, params).params == Some([])
    ensures params.None? && Controllers.InBody(verb) ==>
      LegacyPlace(verb, params).data.None? && Controllers.Place(verb, params).data == Some([])
  {
  }

  /** `make_request(endpoint, params)` of the older controller. */
  function LegacyMakeRequest(base: Paths.BaseUrl, verb: string, p: Paths.ApiPath, params: Option<Dict>,
                             reply: Result<Controllers.Reply, Exc>, detail: string, now: int, later: int)
    : (r: (Controllers.Call, Result<Controllers.Answer, Exc>))
    ensures r.0 == Controllers.Call(verb, LegacyUrl(base, p), LegacyPlace(verb, params))
    ensures r.1.Ok? <==> reply.Ok? && Controllers.HandleErrors(reply.value.status, reply.value.body).None?
    ensures r.1.Ok? ==> reply.value.body == Some(r.1.value.json)
    ensures r.1.Ok? ==> r.1.value.slept == Controllers.Throttle(reply.value.headers, now, later)
    ensures reply.Err? ==> r.1 == Err(Controllers.Reraise(LegacyUrl(base, p), reply.error, detail))
    ensures reply.Ok? && Controllers.HandleErrors(reply.value.status, reply.value.body).Some? ==>
      r.1 == Err(Controllers.Reraise(LegacyUrl(base, p), Controllers.HandleErrors(reply.value.status, reply.value.body).value, detail))
    ensures r.1.Err? ==> r.1.error.HttpError? || r.1.error.ApiError? || r.1.error.Wrapped?
  {
    var url := LegacyUrl(base, p);
    var call := Controllers.Call(verb, url, LegacyPlace(verb, params));
    match reply
    case Err(e) => (call, Err(Controllers.Reraise(url, e, detail)))
    case Ok(response) =>
      match Controllers.HandleErrors(response.status, response.body)
      case Some(e) => (call, Err(Controllers.Reraise(url, e, detail)))
      case None => (call, Ok(Controllers.Answer(response.body.value, Controllers.Throttle(response.headers, now, later))))
  }

  /**
   * Given a dict and the unformatted template as path, the newer
   * `make_request` sends the same call and gets the same result.
   */
  lemma SameRequestAsNewerController(base: Paths.BaseUrl, verb: string, p: Paths.ApiPath, params: Dict,
                                     reply: Result<Controllers.Reply, Exc>, detail: string, now: int, later: int)
    ensures LegacyMakeRequest(base, verb, p, Some(params), reply, detail, now, later)
         == Controllers.MakeRequest(base, verb, Paths.Template(p), Some(params), reply, detail, now, later)
  {
  }
}
