/**
 * The original terminal globe. The container check, the button and the
 * lookup happen when the object is constructed; the panel is rendered
 * once the single request (aborted after 5000 ms) has settled. Unlike the
 * optimized widget it has no options, no offline check and no
 * aria-expanded attribute, and its panel never shows country or IP.
 */
module Terminal {
  import opened JsValues
  import opened Network
  import opened Disclosure

  const Prompt := "visitor@garmir.io:~$ whoami --location"
  const Cursor := "\U{2588}"

  /** The error record: placeholder values and `error: true`. */
  function ErrorRecord(localTz: string): (v: Value)
    ensures v.Obj?
    ensures Get(v, "city") == Get(v, "region") == Get(v, "country_name") == Str("Unknown")
    ensures Get(v, "ip") == Str("0.0.0.0")
    ensures Get(v, "timezone") == Str(LocalZone(localTz))
    ensures Truthy(Get(v, "error"))
  {
    Obj(map[
      "city" := Str("Unknown"),
      "region" := Str("Unknown"),
      "country_name" := Str("Unknown"),
      "ip" := Str("0.0.0.0"),
      "timezone" := Str(LocalZone(localTz)),
      "error" := Bool(true)
    ])
  }

  /** A response in time, with a 2xx status and a JSON body that is a non-null object. */
  predicate Accepted(outcome: FetchOutcome) {
    && outcome.Settled? && IsOk(outcome.reply.status)
    && outcome.reply.body.Json? && outcome.reply.body.value.Obj?
  }

  /** What `fetchLocationData` stores: an accepted body as it is, the error record otherwise. */
  function FetchedRecord(outcome: FetchOutcome, localTz: string): (v: Value)
    ensures v.Obj? && Truthy(v)
    ensures Accepted(outcome) ==> v == outcome.reply.body.value
    ensures !Accepted(outcome) ==> v == ErrorRecord(localTz)
  {
    match outcome
    case Settled(Reply(status, Json(body))) =>
      if IsOk(status) && Truthy(body) && body.Obj? then body else ErrorRecord(localTz)
    case _ => ErrorRecord(localTz)
  }

  /** The fields the panel reads. */
  const RenderedKeys: set<string> := {"city", "region", "timezone", "error"}

  /** `createTerminalOutput()`, one entry per line of the panel. */
  function TerminalOutput(data: Value): (r: seq<string>)
    ensures |r| == 4 && r[0] == Prompt && r[3] == Cursor
    ensures Truthy(Get(data, "error")) ==> r[1] == "Location: [PRIVATE]"
    ensures !Truthy(Get(data, "error")) ==>
              r[1] == Display(Get(data, "city")) + ", " + Display(Get(data, "region"))
    ensures !Truthy(Get(data, "timezone")) ==> r[2] == "Timezone: UTC"
    ensures Truthy(Get(data, "timezone")) ==> r[2] == "Timezone: " + Display(Get(data, "timezone"))
  {
    var location :=
      if Truthy(Get(data, "error")) then "Location: [PRIVATE]"
      else Display(Get(data, "city")) + ", " + Display(Get(data, "region"));
    [Prompt, location, "Timezone: " + Display(Or(Get(data, "timezone"), Str("UTC"))), Cursor]
  }

  /** Replacing a field the panel does not read leaves the panel unchanged. */
  lemma RenderReadsOnlyRenderedKeys(m: map<string, Value>, k: string, x: Value)
    requires k !in RenderedKeys
    ensures TerminalOutput(Obj(m[k := x])) == TerminalOutput(Obj(m))
  {
    forall j | j in RenderedKeys ensures Get(Obj(m[k := x]), j) == Get(Obj(m), j) {
    }
  }

  /** Neither the country nor the IP address is ever rendered. */
  lemma CountryAndIpNeverRendered(m: map<string, Value>, country: Value, ip: Value)
    ensures TerminalOutput(Obj(m["country_name" := country])) == TerminalOutput(Obj(m))
    ensures TerminalOutput(Obj(m["ip" := ip])) == TerminalOutput(Obj(m))
  {
    RenderReadsOnlyRenderedKeys(m, "country_name", country);
    RenderReadsOnlyRenderedKeys(m, "ip", ip);
  }

  /** The error record renders as `Location: [PRIVATE]` in the local zone. */
  lemma ErrorRecordPanel(localTz: string)
    ensures TerminalOutput(ErrorRecord(localTz)) ==
              [Prompt, "Location: [PRIVATE]", "Timezone: " + LocalZone(localTz), Cursor]
  {
    var d := ErrorRecord(localTz);
    assert Get(d, "error") == Bool(true);
    assert Get(d, "timezone") == Str(LocalZone(localTz));
  }

  class TerminalGlobe {
    var mounted: bool             // the container exists and the button was created
    var warnings: nat             // console.warn calls for a missing container
    var requests: nat             // geolocation requests issued
    var awaiting: bool            // the request is in flight
    var rendered: bool            // startLocationDisplay has run
    var locationData: Value
    var display: string           // inline style.display of the panel
    var privacyNoticeShown: bool  // starts undefined, which is falsy
    var notices: nat              // privacy notices raised
    var classes: set<string>      // the button's class list
    var lines: seq<string>        // the panel's text

    function PanelState(): Panel
      reads this
    {
      Panel(display, privacyNoticeShown, notices)
    }

    ghost predicate Valid()
      reads this
    {
      && NoticeBookkeeping(PanelState())
      && requests == (if mounted then 1 else 0)
      && (awaiting ==> mounted && !rendered)
      && (!mounted ==> classes == {} && warnings == 1 && !awaiting && !rendered)
      && (rendered ==> lines == TerminalOutput(locationData))
      && ("location-active" in classes <==> rendered && !Truthy(Get(locationData, "error")))
    }

    /** The constructor with the synchronous part of `initializeGlobe`. */
    constructor (containerFound: bool)
      ensures Valid()
      ensures mounted == containerFound && awaiting == containerFound
      ensures warnings == (if containerFound then 0 else 1)
      ensures requests == (if containerFound then 1 else 0)
      ensures classes == (if containerFound then {"terminal-globe"} else {})
      ensures locationData == Null && lines == [] && !rendered
      ensures PanelState() == Initial
    {
      locationData := Null;
      display := "";
      privacyNoticeShown := false;
      notices := 0;
      lines := [];
      rendered := false;
      mounted := containerFound;
      awaiting := containerFound;
      if containerFound {
        warnings := 0;
        requests := 1;
        classes := {"terminal-globe"};
      } else {
        warnings := 1;
        requests := 0;
        classes := {};
      }
    }

    /** The rest of `initializeGlobe`: store the record, then `startLocationDisplay`. */
    method Settle(outcome: FetchOutcome, localTz: string)
      requires Valid() && awaiting
      modifies this`locationData, this`awaiting, this`rendered, this`lines, this`classes
      ensures Valid() && !awaiting && rendered
      ensures locationData == FetchedRecord(outcome, localTz)
      ensures lines == TerminalOutput(locationData)
      ensures classes == old(classes) + (if Truthy(Get(locationData, "error")) then {} else {"location-active"})
    {
      locationData := FetchedRecord(outcome, localTz);
      awaiting := false;
      if !Truthy(locationData) {
        return;
      }
      lines := TerminalOutput(locationData);
      rendered := true;
      if !Truthy(Get(locationData, "error")) {
        classes := classes + {"location-active"};
      }
    }

    /** `toggleLocationDisplay`: flip "none"/"block" and raise the notice on the first reveal. */
    method ToggleLocationDisplay()
      requires Valid()
      modifies this`display, this`privacyNoticeShown, this`notices
      ensures Valid()
      ensures !mounted ==> PanelState() == old(PanelState())
      ensures mounted ==> PanelState() == Activate(old(PanelState()))
    {
      if !mounted {
        return;
      }
      var isVisible := display != "none";
      display := if isVisible then "none" else "block";
      if !isVisible && !privacyNoticeShown {
        notices := notices + 1;
        privacyNoticeShown := true;
      }
    }
  }

  /**
   * A widget whose request fails: the panel shows `Location: [PRIVATE]`,
   * the button is not marked active, and over any number of activations
   * at most one notice is raised.
   */
  method FailedLookup(outcome: FetchOutcome, localTz: string, activations: nat)
    returns (lines: seq<string>, active: bool, notices: nat)
    requires !Accepted(outcome)
    ensures lines == [Prompt, "Location: [PRIVATE]", "Timezone: " + LocalZone(localTz), Cursor]
    ensures !active && notices <= 1
  {
    var w := new TerminalGlobe(true);
    w.Settle(outcome, localTz);
    var i := 0;
    while i < activations
      invariant 0 <= i <= activations
      invariant w.Valid() && w.mounted
      invariant w.PanelState() == Iterate(Initial, i)
      invariant w.classes == {"terminal-globe"}
      invariant w.lines == TerminalOutput(ErrorRecord(localTz))
    {
      w.ToggleLocationDisplay();
      i := i + 1;
    }
    NoticeAtMostOnce(Initial, activations);
    ErrorRecordPanel(localTz);
    lines, active, notices := w.lines, "location-active" in w.classes, w.notices;
  }
}
