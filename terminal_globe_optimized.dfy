/**
 * The optimized terminal globe: a small button that, once the visitor's
 * location has been looked up, holds a terminal-style text panel revealed
 * by click or Enter/Space.
 *
 * Its lifecycle, in the order the browser runs it:
 *   - the constructor merges the options, and when the container exists
 *     creates the button and starts the lookup (when the browser reports
 *     itself offline, no request is made and the offline fallback record
 *     is stored at once);
 *   - `Respond` is the rest of the lookup once the request settles;
 *   - `Finalize` renders the panel once both have completed;
 *   - `ToggleLocationDisplay` may run at any time after creation.
 */
module OptimizedTerminal {
  import opened Wrappers
  import opened JsValues
  import opened Network
  import opened Disclosure

  // ---------------------------------------------------------------- options

  const DefaultOptions: map<string, Value> := map[
    "timeout" := Num(3000),
    "fallbackEnabled" := Bool(true),
    "privacyMode" := Bool(true),
    "performanceMonitoring" := Bool(true)
  ]

  /** `{ ...defaults, ...options }`: each key the caller gives replaces the default. */
  function MergeOptions(caller: map<string, Value>): (m: map<string, Value>)
    ensures m.Keys == DefaultOptions.Keys + caller.Keys
    ensures forall k :: k in caller ==> m[k] == caller[k]
    ensures forall k :: k in DefaultOptions && k !in caller ==> m[k] == DefaultOptions[k]
  {
    DefaultOptions + caller
  }

  /** `this.options.privacyMode`, as a condition. */
  predicate PrivacyMode(options: map<string, Value>) {
    Truthy(Get(Obj(options), "privacyMode"))
  }

  /**
   * Privacy mode is on unless the caller passes a falsy `privacyMode`
   * (an explicit `undefined` included), and the timeout is 3000 ms
   * unless the caller passes one.
   */
  lemma OptionDefaults(caller: map<string, Value>)
    ensures PrivacyMode(MergeOptions(caller)) <==>
              "privacyMode" !in caller || Truthy(caller["privacyMode"])
    ensures "timeout" !in caller ==> MergeOptions(caller)["timeout"] == Num(3000)
    ensures "timeout" in caller ==> MergeOptions(caller)["timeout"] == caller["timeout"]
  {
  }

  // ------------------------------------------------------- fallback records

  /** Why a fallback record was made; the tag is what the record stores. */
  datatype Reason = Offline | ApiError {
    function Tag(): string {
      match this
      case Offline => "offline"
      case ApiError => "api_error"
    }
    function Label(): string {
      match this
      case Offline => "OFFLINE"
      case ApiError => "API_ERROR"
    }
  }

  /** The upper-cased tag is the label shown in the panel. */
  lemma ReasonLabelIsUpperTag(r: Reason)
    ensures Upper(r.Tag()) == r.Label()
  {
    var t, l := r.Tag(), r.Label();
    assert |Upper(t)| == |l|;
    forall i | 0 <= i < |l| ensures Upper(t)[i] == l[i] {
      assert Upper(t)[i] == UpperChar(t[i]);
    }
  }

  /** `createFallbackData(reason)`: placeholder values tagged with the reason. */
  function FallbackData(reason: Reason, localTz: string): (v: Value)
    ensures v.Obj?
    ensures Get(v, "city") == Get(v, "region") == Get(v, "country_name") == Str("Unknown")
    ensures Get(v, "ip") == Str("0.0.0.0")
    ensures Get(v, "timezone") == Str(LocalZone(localTz))
    ensures Truthy(Get(v, "fallback")) && Get(v, "fallback_reason") == Str(reason.Tag())
  {
    Obj(map[
      "city" := Str("Unknown"),
      "region" := Str("Unknown"),
      "country_name" := Str("Unknown"),
      "ip" := Str("0.0.0.0"),
      "timezone" := Str(LocalZone(localTz)),
      "fallback" := Bool(true),
      "fallback_reason" := Str(reason.Tag())
    ])
  }

  /** A response in time, with a 2xx status and a JSON body. */
  predicate Accepted(outcome: FetchOutcome) {
    outcome.Settled? && IsOk(outcome.reply.status) && outcome.reply.body.Json?
  }

  /**
   * What `locationData` holds once a request has settled: the parsed body
   * of a 2xx response, kept as it is, or the `api_error` fallback for an
   * abort, a rejection, a non-2xx status or a body that is not JSON.
   */
  function LoadedData(outcome: FetchOutcome, localTz: string): (v: Value)
    ensures Accepted(outcome) ==> v == outcome.reply.body.value
    ensures !Accepted(outcome) ==> v == FallbackData(ApiError, localTz)
  {
    match outcome
    case Settled(Reply(status, Json(body))) =>
      if IsOk(status) then body else FallbackData(ApiError, localTz)
    case _ => FallbackData(ApiError, localTz)
  }

  // ---------------------------------------------------------------- render

  const Prompt := "visitor@garmir.io:~$ whoami --location"
  const FallbackWarning := "\U{26A0} Using fallback data"
  const Cursor := "\U{2588}"

  /** The fields the panel reads; every other field of the record is never rendered. */
  const RenderedKeys: set<string> :=
    {"city", "region", "country_name", "timezone", "fallback", "fallback_reason"}

  /**
   * `fallback_reason?.toUpperCase()`: `undefined` for a missing or null
   * reason, the upper case of a text, and a TypeError for anything else.
   */
  function UpperReason(reason: Value): (r: Result<Value>)
    ensures r.Threw? <==> !Nullish(reason) && !reason.Str?
    ensures reason.Str? ==> r == Ok(Str(Upper(reason.s)))
  {
    match reason
    case Undefined => Ok(Undefined)
    case Null => Ok(Undefined)
    case Str(s) => Ok(Str(Upper(s)))
    case _ => Threw
  }

  /** `fallback` in the record is truthy. */
  predicate IsFallback(data: Value) {
    Truthy(Get(data, "fallback"))
  }

  /** `fallback_reason` in the record. */
  function ReasonOf(data: Value): Value {
    Get(data, "fallback_reason")
  }

  /**
   * The location line of the panel: for a fallback record the upper-cased
   * reason, or PRIVATE when the reason is missing or empty; otherwise city
   * and region, and the country too when privacy mode is off.
   */
  function LocationLine(data: Value, privacyMode: bool): (r: Result<string>)
    ensures IsFallback(data) && ReasonOf(data).Str? && ReasonOf(data).s != "" ==>
              r == Ok("Location: [" + Upper(ReasonOf(data).s) + "]")
    ensures IsFallback(data) && (Nullish(ReasonOf(data)) || ReasonOf(data) == Str("")) ==>
              r == Ok("Location: [PRIVATE]")
    ensures IsFallback(data) && !Nullish(ReasonOf(data)) && !ReasonOf(data).Str? ==> r == Threw
    ensures !IsFallback(data) && privacyMode ==>
              r == Ok(Display(Get(data, "city")) + ", " + Display(Get(data, "region")))
    ensures !IsFallback(data) && !privacyMode ==>
              r == Ok(Display(Get(data, "city")) + ", " + Display(Get(data, "region")) + ", " + Display(Get(data, "country_name")))
  {
    var city, region, country := Get(data, "city"), Get(data, "region"), Get(data, "country_name");
    if Truthy(Get(data, "fallback")) then
      match UpperReason(Get(data, "fallback_reason"))
      case Threw => Threw
      case Ok(t) =>
        assert ReasonOf(data) == Str("") ==> Upper(ReasonOf(data).s) == [];
        assert "Location: [" + "PRIVATE" + "]" == "Location: [PRIVATE]";
        Ok("Location: [" + Display(Or(t, Str("PRIVATE"))) + "]")
    else if privacyMode then
      Ok(Display(city) + ", " + Display(region))
    else
      Ok(Display(city) + ", " + Display(region) + ", " + Display(country))
  }

  /**
   * `createTerminalOutput()`, one entry per line of the panel, the time
   * of day being given as text. It throws only when the record is a
   * fallback whose reason is neither text nor missing.
   */
  function TerminalOutput(data: Value, privacyMode: bool, clock: string): (r: Result<seq<string>>)
    ensures r.Threw? <==>
              Truthy(Get(data, "fallback")) &&
              !Nullish(Get(data, "fallback_reason")) && !Get(data, "fallback_reason").Str?
    ensures r.Ok? ==>
              && |r.value| == (if Truthy(Get(data, "fallback")) then 6 else 5)
              && r.value[0] == Prompt
              && Ok(r.value[1]) == LocationLine(data, privacyMode)
              && r.value[2] == "Timezone: " + Display(Get(data, "timezone"))
              && r.value[3] == "Time: " + clock
              && (r.value[4] == FallbackWarning <==> Truthy(Get(data, "fallback")))
              && r.value[|r.value| - 1] == Cursor
  {
    var fallback := Truthy(Get(data, "fallback"));
    match LocationLine(data, privacyMode)
    case Threw => Threw
    case Ok(location) =>
      Ok([Prompt, location, "Timezone: " + Display(Get(data, "timezone")), "Time: " + clock]
         + (if fallback then [FallbackWarning] else [])
         + [Cursor])
  }

  /** Replacing a field the panel does not read leaves the panel unchanged. */
  lemma RenderReadsOnlyRenderedKeys(m: map<string, Value>, k: string, x: Value, privacyMode: bool, clock: string)
    requires k !in RenderedKeys
    ensures TerminalOutput(Obj(m[k := x]), privacyMode, clock) == TerminalOutput(Obj(m), privacyMode, clock)
  {
    forall j | j in RenderedKeys ensures Get(Obj(m[k := x]), j) == Get(Obj(m), j) {
    }
  }

  /** The IP address is never rendered, whatever the mode and whatever the record. */
  lemma IpNeverRendered(m: map<string, Value>, ip: Value, clock: string)
    ensures TerminalOutput(Obj(m["ip" := ip]), true, clock) == TerminalOutput(Obj(m), true, clock)
    ensures TerminalOutput(Obj(m["ip" := ip]), false, clock) == TerminalOutput(Obj(m), false, clock)
  {
    RenderReadsOnlyRenderedKeys(m, "ip", ip, true, clock);
    RenderReadsOnlyRenderedKeys(m, "ip", ip, false, clock);
  }

  /** In privacy mode the country is never rendered either. */
  lemma PrivacyModeHidesCountry(m: map<string, Value>, country: Value, clock: string)
    ensures TerminalOutput(Obj(m["country_name" := country]), true, clock) == TerminalOutput(Obj(m), true, clock)
  {
    var m' := m["country_name" := country];
    forall j | j in RenderedKeys - {"country_name"} ensures Get(Obj(m'), j) == Get(Obj(m), j) {
    }
  }

  /** A live record: city and region in privacy mode, then the country when privacy is off. */
  lemma LiveLocationLine(data: Value, clock: string)
    requires !Truthy(Get(data, "fallback"))
    ensures TerminalOutput(data, true, clock).Ok?
    ensures TerminalOutput(data, true, clock).value[1] ==
              Display(Get(data, "city")) + ", " + Display(Get(data, "region"))
    ensures TerminalOutput(data, false, clock).value[1] ==
              Display(Get(data, "city")) + ", " + Display(Get(data, "region")) + ", " + Display(Get(data, "country_name"))
    ensures |TerminalOutput(data, true, clock).value| == 5
  {
  }

  /** A fallback record made by the widget renders `Location: [OFFLINE]` or `Location: [API_ERROR]` and the warning. */
  lemma FallbackPanel(reason: Reason, localTz: string, privacyMode: bool, clock: string)
    ensures TerminalOutput(FallbackData(reason, localTz), privacyMode, clock) ==
              Ok([Prompt, "Location: [" + reason.Label() + "]", "Timezone: " + LocalZone(localTz),
                  "Time: " + clock, FallbackWarning, Cursor])
  {
    ReasonLabelIsUpperTag(reason);
    var d := FallbackData(reason, localTz);
    assert Get(d, "fallback") == Bool(true);
    assert Get(d, "fallback_reason") == Str(reason.Tag());
    assert Get(d, "timezone") == Str(LocalZone(localTz));
    assert UpperReason(Get(d, "fallback_reason")) == Ok(Str(reason.Label()));
    var loc := "Location: [" + reason.Label() + "]";
    assert LocationLine(d, privacyMode) == Ok(loc);
    var head := [Prompt, loc, "Timezone: " + LocalZone(localTz), "Time: " + clock];
    assert Display(Get(d, "timezone")) == LocalZone(localTz);
    assert TerminalOutput(d, privacyMode, clock) == Ok(head + [FallbackWarning] + [Cursor]);
    assert head + [FallbackWarning] + [Cursor] ==
           [Prompt, loc, "Timezone: " + LocalZone(localTz), "Time: " + clock, FallbackWarning, Cursor];
  }

  /** A fallback record with an empty or missing reason shows `Location: [PRIVATE]`. */
  lemma MissingReasonIsPrivate(data: Value, privacyMode: bool)
    requires Truthy(Get(data, "fallback"))
    requires Nullish(Get(data, "fallback_reason")) || Get(data, "fallback_reason") == Str("")
    ensures LocationLine(data, privacyMode) == Ok("Location: [PRIVATE]")
  {
    var reason := Get(data, "fallback_reason");
    var t := UpperReason(reason).value;
    assert reason.Str? ==> Upper(reason.s) == [];
    assert !Truthy(t);
    assert Display(Or(t, Str("PRIVATE"))) == "PRIVATE";
    assert "Location: [" + "PRIVATE" + "]" == "Location: [PRIVATE]";
  }

  /** A fallback record with a text reason shows that reason upper-cased, e.g. `vpn` as `Location: [VPN]`. */
  lemma TextReasonShownUpperCased(data: Value, reason: string, privacyMode: bool, clock: string)
    requires Truthy(Get(data, "fallback")) && Get(data, "fallback_reason") == Str(reason) && reason != ""
    ensures TerminalOutput(data, privacyMode, clock).Ok?
    ensures TerminalOutput(data, privacyMode, clock).value[1] == "Location: [" + Upper(reason) + "]"
    ensures TerminalOutput(data, privacyMode, clock).value[4] == FallbackWarning
  {
  }

  // ---------------------------------------------------------------- widget

  class OptimizedTerminalGlobe {
    var options: map<string, Value>
    var mounted: bool                 // the container exists and the button was created
    var warnings: nat                 // console.warn calls: missing container, failed initialization
    var requests: nat                 // geolocation requests issued
    var awaiting: bool                // a request is in flight
    var finalized: bool               // finalizeInitialization has run
    var locationData: Value
    var display: string               // inline style.display of the panel
    var privacyNoticeShown: bool
    var notices: nat                  // privacy notices raised
    var ariaExpanded: Option<string>  // the button's aria-expanded attribute
    var classes: set<string>          // the button's class list
    var lines: seq<string>            // the panel's text
    var replacedByFallback: bool      // showFallbackDisplay replaced the container's content

    /** The click-to-reveal part of the state. */
    function PanelState(): Panel
      reads this
    {
      Panel(display, privacyNoticeShown, notices)
    }

    ghost predicate Valid()
      reads this
    {
      && NoticeBookkeeping(PanelState())
      && (ariaExpanded.Some? ==> ariaExpanded.value == BoolText(Shown(display)))
      && (ariaExpanded.None? ==> display == "")
      && requests <= 1
      && (awaiting ==> mounted && requests == 1 && !finalized)
      && (!mounted ==> requests == 0 && classes == {} && warnings == 1 && !finalized && !replacedByFallback)
      && ("location-active" in classes ==> finalized && Truthy(locationData) && !Truthy(Get(locationData, "fallback")))
      && (replacedByFallback ==> finalized)
    }

    constructor (containerFound: bool, callerOptions: map<string, Value>, online: bool, localTz: string)
      ensures Valid()
      ensures options == MergeOptions(callerOptions)
      ensures mounted == containerFound
      ensures warnings == (if containerFound then 0 else 1)
      ensures requests == (if containerFound && online then 1 else 0)
      ensures awaiting == (containerFound && online)
      ensures locationData == (if containerFound && !online then FallbackData(Offline, localTz) else Null)
      ensures classes == (if containerFound then {"terminal-globe"} else {})
      ensures PanelState() == Initial && ariaExpanded == None
      ensures lines == [] && !finalized && !replacedByFallback
    {
      options := MergeOptions(callerOptions);
      locationData := Null;
      privacyNoticeShown := false;
      notices := 0;
      display := "";
      ariaExpanded := None;
      lines := [];
      finalized := false;
      replacedByFallback := false;
      mounted := containerFound;
      if containerFound {
        warnings := 0;
        classes := {"terminal-globe"};
        if online {
          requests := 1;
          awaiting := true;
        } else {
          requests := 0;
          awaiting := false;
          locationData := FallbackData(Offline, localTz);
        }
      } else {
        warnings := 1;
        classes := {};
        requests := 0;
        awaiting := false;
      }
    }

    /** `loadLocationDataAsync` after its request settles. */
    method Respond(outcome: FetchOutcome, localTz: string)
      requires Valid() && awaiting
      modifies this`locationData, this`awaiting
      ensures Valid() && !awaiting
      ensures locationData == LoadedData(outcome, localTz)
    {
      locationData := LoadedData(outcome, localTz);
      awaiting := false;
    }

    /**
     * `finalizeInitialization`: render the panel when there is a record;
     * mark the button `location-active` when the record is not a fallback.
     * A render that throws is caught by the initializer, which warns and
     * replaces the container's content with the static fallback.
     */
    method Finalize(clock: string)
      requires Valid() && mounted && !awaiting && !finalized
      modifies this`finalized, this`lines, this`classes, this`replacedByFallback, this`warnings
      ensures Valid() && finalized
      ensures warnings == old(warnings) + (if replacedByFallback then 1 else 0)
      ensures var out := TerminalOutput(locationData, PrivacyMode(options), clock);
              && (!Truthy(locationData) ==>
                    lines == old(lines) && classes == old(classes) && !replacedByFallback)
              && (Truthy(locationData) && out.Ok? ==>
                    && lines == out.value && !replacedByFallback
                    && classes == old(classes) + (if Truthy(Get(locationData, "fallback")) then {} else {"location-active"}))
              && (Truthy(locationData) && out.Threw? ==>
                    lines == old(lines) && classes == old(classes) && replacedByFallback)
    {
      assert "location-active" !in classes;
      finalized := true;
      if !Truthy(locationData) {
        return;
      }
      var out := TerminalOutput(locationData, PrivacyMode(options), clock);
      if out.Threw? {
        warnings := warnings + 1;
        replacedByFallback := true;
      } else {
        lines := out.value;
        if !Truthy(Get(locationData, "fallback")) {
          classes := classes + {"location-active"};
        }
      }
    }

    /**
     * `toggleLocationDisplay`: flip the inline display between "none" and
     * "block", set aria-expanded, and raise the privacy notice on the first
     * reveal.
     */
    method ToggleLocationDisplay()
      requires Valid()
      modifies this`display, this`privacyNoticeShown, this`notices, this`ariaExpanded
      ensures Valid()
      ensures !mounted ==> PanelState() == old(PanelState()) && ariaExpanded == old(ariaExpanded)
      ensures mounted ==> PanelState() == Activate(old(PanelState()))
      ensures mounted ==> ariaExpanded == Some(BoolText(Shown(display)))
    {
      if !mounted {
        return;
      }
      var isVisible := display != "none";
      display := if isVisible then "none" else "block";
      ariaExpanded := Some(BoolText(!isVisible));
      if !isVisible && !privacyNoticeShown {
        notices := notices + 1;
        privacyNoticeShown := true;
      }
    }
  }

  /**
   * A mounted widget activated twice: after the first activation the
   * panel is still hidden, aria-expanded says "false" and no notice was
   * raised; after the second the panel and one notice are shown.
   */
  method TwoActivations(online: bool, localTz: string)
    returns (shownAfterFirst: bool, ariaAfterFirst: string, noticesAfterFirst: nat,
             shownAfterSecond: bool, ariaAfterSecond: string, noticesAfterSecond: nat)
    ensures !shownAfterFirst && ariaAfterFirst == "false" && noticesAfterFirst == 0
    ensures shownAfterSecond && ariaAfterSecond == "true" && noticesAfterSecond == 1
  {
    var w := new OptimizedTerminalGlobe(true, map[], online, localTz);
    w.ToggleLocationDisplay();
    shownAfterFirst, ariaAfterFirst, noticesAfterFirst := Shown(w.display), w.ariaExpanded.value, w.notices;
    w.ToggleLocationDisplay();
    shownAfterSecond, ariaAfterSecond, noticesAfterSecond := Shown(w.display), w.ariaExpanded.value, w.notices;
  }
}
