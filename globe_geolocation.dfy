/**
 * The 3D globe's visitor lookup. Three geolocation providers are asked in
 * a fixed order; the first whose JSON body has a truthy latitude and
 * longitude supplies the visitor's location and the rest are not asked.
 * A provider whose request rejects, whose body is not JSON, or whose
 * coordinates are missing or zero is skipped. The response status is
 * never looked at. When no provider answers usefully the globe is drawn
 * without a marker or an info line.
 *
 * When the 3D library cannot be loaded, a static picture is shown instead,
 * with a one-line label filled from one more lookup.
 */
module GeoLocation {
  import opened Wrappers
  import opened JsValues
  import opened Network

  const Providers: seq<string> := [
    "https://ipapi.co/json/",
    "https://ip-api.com/json/",
    "https://freegeoip.app/json/"
  ]

  /** `this.userLocation` once set. */
  datatype UserLocation = UserLocation(lat: Value, lon: Value, city: Value, country: Value, ip: Value)

  /** The record built from a body with coordinates, with its `||` defaulting chains. */
  function MakeLocation(data: Value): (u: UserLocation)
    ensures u.lat == Get(data, "latitude") && u.lon == Get(data, "longitude")
    ensures Truthy(u.city) && Truthy(u.country) && Truthy(u.ip)
    ensures Truthy(Get(data, "city")) ==> u.city == Get(data, "city")
    ensures !Truthy(Get(data, "city")) && Truthy(Get(data, "region_name")) ==> u.city == Get(data, "region_name")
    ensures !Truthy(Get(data, "city")) && !Truthy(Get(data, "region_name")) ==> u.city == Str("Unknown")
    ensures Truthy(Get(data, "country")) ==> u.country == Get(data, "country")
    ensures !Truthy(Get(data, "country")) && Truthy(Get(data, "country_name")) ==> u.country == Get(data, "country_name")
    ensures !Truthy(Get(data, "country")) && !Truthy(Get(data, "country_name")) ==> u.country == Str("Unknown")
    ensures Truthy(Get(data, "ip")) ==> u.ip == Get(data, "ip")
    ensures !Truthy(Get(data, "ip")) ==> u.ip == Str("Unknown")
  {
    UserLocation(
      Get(data, "latitude"),
      Get(data, "longitude"),
      Or(Get(data, "city"), Or(Get(data, "region_name"), Str("Unknown"))),
      Or(Get(data, "country"), Or(Get(data, "country_name"), Str("Unknown"))),
      Or(Get(data, "ip"), Str("Unknown")))
  }

  /** A response whose body parses to a value that properties can be read from. */
  predicate ReadableBody(outcome: FetchOutcome) {
    outcome.Settled? && outcome.reply.body.Json? && !Nullish(outcome.reply.body.value)
  }

  /** One provider's contribution: a location, or `None` when the loop moves on. */
  function Attempt(outcome: FetchOutcome): (r: Option<UserLocation>)
    ensures r.Some? <==>
              ReadableBody(outcome) &&
              Truthy(Get(outcome.reply.body.value, "latitude")) && Truthy(Get(outcome.reply.body.value, "longitude"))
    ensures r.Some? ==> r.value == MakeLocation(outcome.reply.body.value)
  {
    match outcome
    case Settled(Reply(_, Json(data))) =>
      if Nullish(data) then None  // reading `data.latitude` throws
      else if Truthy(Get(data, "latitude")) && Truthy(Get(data, "longitude")) then Some(MakeLocation(data))
      else None
    case _ => None
  }

  /** A zero coordinate counts as missing, and the status of the response plays no part. */
  lemma AttemptIgnoresStatusAndZero(status: int, status': int, m: map<string, Value>)
    ensures Attempt(Settled(Reply(status, Json(Obj(m))))) == Attempt(Settled(Reply(status', Json(Obj(m)))))
    ensures "latitude" in m && m["latitude"] == Num(0) ==> Attempt(Settled(Reply(status, Json(Obj(m))))) == None
  {
  }

  /** The location the lookup settles on, the providers' outcomes being given in order. */
  function FirstHit(replies: seq<FetchOutcome>): (r: Option<UserLocation>)
    ensures r.None? <==> forall i :: 0 <= i < |replies| ==> Attempt(replies[i]).None?
    ensures r.Some? ==> Contacted(replies) >= 1 && r == Attempt(replies[Contacted(replies) - 1])
    decreases |replies|
  {
    if replies == [] then None
    else if Attempt(replies[0]).Some? then Attempt(replies[0])
    else FirstHit(replies[1..])
  }

  /** How many providers the lookup contacts. */
  function Contacted(replies: seq<FetchOutcome>): (c: nat)
    ensures c <= |replies|
    ensures replies != [] ==> c >= 1
    decreases |replies|
  {
    if replies == [] then 0
    else if Attempt(replies[0]).Some? then 1
    else 1 + Contacted(replies[1..])
  }

  /**
   * The lookup stops at the first useful provider: every provider before
   * it was contacted and gave nothing, and none after it is contacted.
   * With no useful provider, every one is contacted and the location stays
   * unset.
   */
  lemma {:induction false} FirstHitIsFirstUseful(replies: seq<FetchOutcome>)
    ensures forall j :: 0 <= j < Contacted(replies) - 1 ==> Attempt(replies[j]).None?
    ensures FirstHit(replies).Some? ==>
              Contacted(replies) >= 1 && Attempt(replies[Contacted(replies) - 1]) == FirstHit(replies)
    ensures FirstHit(replies).None? ==>
              Contacted(replies) == |replies| && forall j :: 0 <= j < |replies| ==> Attempt(replies[j]).None?
    decreases |replies|
  {
    if replies != [] && Attempt(replies[0]).None? {
      var rest := replies[1..];
      FirstHitIsFirstUseful(rest);
      forall j | 1 <= j < |replies| ensures replies[j] == rest[j - 1] {
      }
    }
  }

  /** The first line of the info panel under the globe. */
  function VisitorLine(u: UserLocation): (r: string)
    ensures |r| >= 9 && r[..9] == "visitor: " && r[9..] == Display(u.city) + ", " + Display(u.country)
  {
    "visitor: " + Display(u.city) + ", " + Display(u.country)
  }

  /** Asking the provider at position `i` either settles the lookup or passes it on to the next one. */
  lemma LookupStep(replies: seq<FetchOutcome>, i: nat)
    requires i < |replies|
    ensures Attempt(replies[i]).Some? ==> FirstHit(replies[i..]) == Attempt(replies[i]) && Contacted(replies[i..]) == 1
    ensures Attempt(replies[i]).None? ==>
              FirstHit(replies[i..]) == FirstHit(replies[i + 1..]) && Contacted(replies[i..]) == 1 + Contacted(replies[i + 1..])
  {
    assert replies[i..][0] == replies[i] && replies[i..][1..] == replies[i + 1..];
  }

  /** The info line names the visitor's city and country and never the IP address. */
  lemma VisitorLineOmitsIp(u: UserLocation, ip: Value)
    ensures VisitorLine(u.(ip := ip)) == VisitorLine(u)
    ensures VisitorLine(u)[..9] == "visitor: "
  {
  }

  class GeoLocationGlobe {
    var mounted: bool                   // the container exists
    var userLocation: Option<UserLocation>
    var contacted: seq<string>          // the providers asked, in order
    var markerAdded: bool               // the visitor's marker is on the globe
    var infoLine: Option<string>        // the info panel's visitor line

    constructor (containerFound: bool)
      ensures mounted == containerFound
      ensures userLocation == None && contacted == [] && !markerAdded && infoLine == None
    {
      mounted := containerFound;
      userLocation := None;
      contacted := [];
      markerAdded := false;
      infoLine := None;
    }

    /** `getVisitorLocation`: ask the providers in order until one gives coordinates. */
    method GetVisitorLocation(replies: seq<FetchOutcome>)
      requires |replies| == |Providers|
      requires userLocation == None && contacted == []
      modifies this`userLocation, this`contacted
      ensures userLocation == FirstHit(replies)
      ensures contacted == Providers[..Contacted(replies)]
    {
      var i := 0;
      while i < |Providers|
        invariant 0 <= i <= |Providers|
        invariant userLocation == None
        invariant contacted == Providers[..i]
        invariant FirstHit(replies) == FirstHit(replies[i..])
        invariant Contacted(replies) == i + Contacted(replies[i..])
      {
        contacted := contacted + [Providers[i]];
        var found := Attempt(replies[i]);
        LookupStep(replies, i);
        if found.Some? {
          userLocation := found;
          assert Providers[..i + 1] == contacted;
          return;
        }
        i := i + 1;
      }
    }

    /**
     * `init`: nothing without a container; otherwise look the visitor up,
     * then build the scene. `rendererCreated` says whether the WebGL
     * renderer's constructor returned; when it throws, `init` rejects
     * before the marker and the info line, which are otherwise added
     * exactly when a location was found.
     */
    method Init(replies: seq<FetchOutcome>, rendererCreated: bool)
      requires |replies| == |Providers|
      requires userLocation == None && contacted == [] && !markerAdded && infoLine == None
      modifies this`userLocation, this`contacted, this`markerAdded, this`infoLine
      ensures !mounted ==> userLocation == None && contacted == [] && !markerAdded && infoLine == None
      ensures mounted ==> userLocation == FirstHit(replies) && contacted == Providers[..Contacted(replies)]
      ensures markerAdded <==> rendererCreated && userLocation.Some?
      ensures infoLine == if markerAdded then Some(VisitorLine(userLocation.value)) else None
    {
      if !mounted {
        return;
      }
      GetVisitorLocation(replies);
      if !rendererCreated {
        return;
      }
      if userLocation.Some? {
        markerAdded := true;
        infoLine := Some(VisitorLine(userLocation.value));
      }
    }
  }

  // ------------------------------------------------------- static fallback

  const LoadingLabel := "interactive globe loading..."
  const FailureLabel := "geographic visualization"

  /** What the static picture shows: nothing changed, or the picture with its label. */
  datatype StaticGlobe = Untouched | Static(caption: string)

  /**
   * `initStaticGlobe`: only a container without a canvas is replaced. The
   * label names the visitor when the body has a truthy city and country,
   * keeps the loading text when it lacks one of them, and becomes the
   * failure text when the request rejects, the body is not JSON or is null.
   */
  function InitStaticGlobe(containerFound: bool, hasCanvas: bool, outcome: FetchOutcome): (g: StaticGlobe)
    ensures g.Untouched? <==> !containerFound || hasCanvas
    ensures g.Static? && !ReadableBody(outcome) ==> g.caption == FailureLabel
    ensures g.Static? && ReadableBody(outcome) ==>
              var data := outcome.reply.body.value;
              g.caption == if Truthy(Get(data, "city")) && Truthy(Get(data, "country"))
                          then "visitor: " + Display(Get(data, "city")) + ", " + Display(Get(data, "country"))
                          else LoadingLabel
  {
    if !containerFound || hasCanvas then Untouched
    else
      match outcome
      case Settled(Reply(_, Json(data))) =>
        if Nullish(data) then Static(FailureLabel)
        else if Truthy(Get(data, "city")) && Truthy(Get(data, "country")) then
          Static("visitor: " + Display(Get(data, "city")) + ", " + Display(Get(data, "country")))
        else Static(LoadingLabel)
      case _ => Static(FailureLabel)
  }
}
