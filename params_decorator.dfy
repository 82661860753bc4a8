/** ScoreflexRequestParamsDecorator: before a request goes out, its parameter table gets
    the language, the device location, the session id for web resources, and the list of
    client-side services the device can authenticate with. Nothing already there is
    overwritten except the session id. The SDK configuration and the platform checks reach
    decorate as a Platform value. */
module Decorator {
  import opened Wrappers
  import opened Params
  import opened UriHelper

  /** android.location.Location through the text Java gives its latitude and longitude. */
  datatype Location = Location(latitude: string, longitude: string)

  /** What decorate reads besides its arguments: Scoreflex.getLang(), Scoreflex.getLocation(),
      ScoreflexRestClient.getSID(), and whether the Facebook and Google wrappers report
      their service available. */
  datatype Platform = Platform(lang: Option<string>, location: Option<Location>, sid: Option<string>,
                               facebookAvailable: bool, googleAvailable: bool)

  const FACEBOOK_SERVICE := "Facebook:login|invite|share"
  const GOOGLE_SERVICE := "Google:login|invite|share"

  /** The location parameter: latitude and longitude joined by ',', or null. */
  function LocationText(location: Option<Location>): Option<string> {
    if location.None? then None else Some(location.value.latitude + "," + location.value.longitude)
  }

  /** The handled services, Facebook first. */
  function HandledServices(p: Platform): seq<string> {
    (if p.facebookAvailable then [FACEBOOK_SERVICE] else []) + (if p.googleAvailable then [GOOGLE_SERVICE] else [])
  }

  /** The parts with `sep` between each two of them. */
  function Join(parts: seq<string>, sep: char): string
    decreases |parts|
  {
    if |parts| == 0 then ""
    else if |parts| == 1 then parts[0]
    else Join(parts[..|parts| - 1], sep) + [sep] + parts[|parts| - 1]
  }

  /** The StringBuffer loop of decorate: each service after the first is preceded by ','. */
  method JoinServices(services: seq<string>) returns (s: string)
    ensures s == Join(services, ',')
  {
    s := "";
    for i := 0 to |services|
      invariant s == Join(services[..i], ',')
    {
      if 0 < i {
        s := s + [','];
      }
      s := s + services[i];
      assert services[..i + 1][..i] == services[..i];
    }
    assert services[..|services|] == services;
  }

  /** The services value: Facebook and Google joined by ',' when both are available, the one
      available otherwise, and none at all when neither is. */
  lemma HandledServicesValue(p: Platform)
    ensures |HandledServices(p)| == 0 <==> !p.facebookAvailable && !p.googleAvailable
    ensures p.facebookAvailable && p.googleAvailable ==>
              Join(HandledServices(p), ',') == FACEBOOK_SERVICE + "," + GOOGLE_SERVICE
    ensures p.facebookAvailable && !p.googleAvailable ==> Join(HandledServices(p), ',') == FACEBOOK_SERVICE
    ensures !p.facebookAvailable && p.googleAvailable ==> Join(HandledServices(p), ',') == GOOGLE_SERVICE
  {
    var both := [FACEBOOK_SERVICE, GOOGLE_SERVICE];
    if p.facebookAvailable && p.googleAvailable {
      assert HandledServices(p) == both;
      assert both[..1] == [FACEBOOK_SERVICE];
    }
  }

  /** addParameterIfNotPresent on a parameter table's entries: nothing happens when the
      table, the name or the value is null, or when the name already has an entry. */
  function AddIfAbsent(e: map<string, Option<string>>, name: Option<string>, value: Option<string>)
    : (r: map<string, Option<string>>)
    ensures name.None? || value.None? ==> r == e
    ensures forall k | k in e :: k in r && r[k] == e[k]
    ensures forall k | k in r && k !in e :: name == Some(k) && r[k] == value && value.Some?
    ensures name.Some? && value.Some? ==> name.value in r
  {
    if name.None? || value.None? then e
    else if name.value in e then e
    else e[name.value := value]
  }

  /** addParameterIfNotPresent(params, paramName, paramValue) with a string value. */
  method AddParameterIfNotPresent(params: RequestParams?, name: Option<string>, value: Option<string>)
    modifies params
    ensures params != null ==> params.entries == AddIfAbsent(old(params.entries), name, value)
  {
    if params == null || name.None? || value.None? {
      return;
    }
    if params.Has(name.value) {
      return;
    }
    params.Put(name.value, value);
  }

  /** addParameterIfNotPresent(params, paramName, paramValue) with a Location value: a null
      location adds nothing, any other is written as "latitude,longitude". */
  method AddLocationIfNotPresent(params: RequestParams?, name: Option<string>, location: Option<Location>)
    modifies params
    ensures params != null ==> params.entries == AddIfAbsent(old(params.entries), name, LocationText(location))
  {
    if location.None? {
      return;
    }
    AddParameterIfNotPresent(params, name, Some(location.value.latitude + "," + location.value.longitude));
  }

  /** The entries decorate leaves in a table that held `e`. */
  function Decorated(e: map<string, Option<string>>, resource: string, p: Platform): map<string, Option<string>> {
    var withLang := AddIfAbsent(e, Some("lang"), p.lang);
    var withLocation := AddIfAbsent(withLang, Some("location"), LocationText(p.location));
    var withSid := if StartsWith(resource, "/web") then withLocation["sid" := p.sid] else withLocation;
    var services := HandledServices(p);
    if 0 < |services| then AddIfAbsent(withSid, Some("handledServices"), Some(Join(services, ',')))
    else withSid
  }

  /** decorate(resource, params). */
  method Decorate(resource: string, params: RequestParams, p: Platform)
    modifies params
    ensures params.entries == Decorated(old(params.entries), resource, p)
  {
    AddParameterIfNotPresent(params, Some("lang"), p.lang);
    AddLocationIfNotPresent(params, Some("location"), p.location);
    if StartsWith(resource, "/web") {
      params.Put("sid", p.sid);
    }
    var handledServices: seq<string> := [];
    if p.facebookAvailable {
      handledServices := handledServices + [FACEBOOK_SERVICE];
    }
    if p.googleAvailable {
      handledServices := handledServices + [GOOGLE_SERVICE];
    }
    assert handledServices == HandledServices(p);
    if 0 < |handledServices| {
      var buf := JoinServices(handledServices);
      AddParameterIfNotPresent(params, Some("handledServices"), Some(buf));
    }
  }

  /** decorate adds no key but lang, location, sid and handledServices, and changes no entry
      that was there except sid. */
  lemma DecorateAddsOnlyItsKeys(e: map<string, Option<string>>, resource: string, p: Platform)
    ensures forall k | k in Decorated(e, resource, p) && k !in e ::
              k == "lang" || k == "location" || k == "sid" || k == "handledServices"
    ensures forall k | k in e && k != "sid" :: k in Decorated(e, resource, p) && Decorated(e, resource, p)[k] == e[k]
  {
  }

  /** The session id is put, over any value it had, exactly for resources under "/web";
      elsewhere its entry is left as it was. */
  lemma DecorateSid(e: map<string, Option<string>>, resource: string, p: Platform)
    ensures StartsWith(resource, "/web") ==> "sid" in Decorated(e, resource, p) && Decorated(e, resource, p)["sid"] == p.sid
    ensures !StartsWith(resource, "/web") ==>
              ("sid" in Decorated(e, resource, p) <==> "sid" in e)
              && ("sid" in e ==> Decorated(e, resource, p)["sid"] == e["sid"])
  {
  }

  /** lang, location and handledServices are added only when absent and known. */
  lemma DecorateAddsWhenAbsent(e: map<string, Option<string>>, resource: string, p: Platform)
    ensures "lang" !in e ==> ("lang" in Decorated(e, resource, p) <==> p.lang.Some?)
    ensures "lang" !in e && p.lang.Some? ==> Decorated(e, resource, p)["lang"] == p.lang
    ensures "location" !in e ==> ("location" in Decorated(e, resource, p) <==> p.location.Some?)
    ensures "location" !in e && p.location.Some? ==>
              Decorated(e, resource, p)["location"] == Some(p.location.value.latitude + "," + p.location.value.longitude)
    ensures "handledServices" !in e ==>
              ("handledServices" in Decorated(e, resource, p) <==> p.facebookAvailable || p.googleAvailable)
    ensures "handledServices" !in e && (p.facebookAvailable || p.googleAvailable) ==>
              Decorated(e, resource, p)["handledServices"] == Some(Join(HandledServices(p), ','))
  {
    HandledServicesValue(p);
  }

  /** Decorating twice is decorating once. */
  lemma DecorateIdempotent(e: map<string, Option<string>>, resource: string, p: Platform)
    ensures Decorated(Decorated(e, resource, p), resource, p) == Decorated(e, resource, p)
  {
    HandledServicesValue(p);
  }
}
