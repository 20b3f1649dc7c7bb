/**
 * The navigation bar (interface/src/pages/Navbar.tsx): the colour of the
 * health dot and its tooltip, computed from the last status poll, and the
 * guards in front of the optional callbacks.
 */
module Navbar {
  import opened Wrappers
  import opened OpenAIModel
  import opened DataModel
  import Api

  /** The colour of the health dot: the classes bg-red-500, bg-orange-500 and bg-green-500. */
  datatype Color = Red | Orange | Green

  /**
   * getStatusColor (Navbar.tsx:52-57); `status` is None while no poll has
   * succeeded. Green needs the server, the API and the key all up; a
   * reported outage is orange whatever the key; everything else is red.
   */
  function StatusColor(status: Option<StatusResponse>): (c: Color)
    ensures status.None? ==> c == Red
    ensures c == Green <==> status.Some? && status.value.server && status.value.api == Some(true) && status.value.key
    ensures c == Orange <==> status.Some? && status.value.api == Some(false)
  {
    match status
    case None => Red
    case Some(s) =>
      if s.server && s.api == Some(true) && s.key then Green
      else if s.api == Some(false) then Orange
      else Red
  }

  /** An ASCII lower-case letter upper-cased; every other character unchanged. */
  function UpperCase(c: char): char
  {
    if 'a' <= c <= 'z' then (c as int - 32) as char else c
  }

  /** capitalizeFirstLetter (Navbar.tsx:59-61). */
  function Capitalize(s: string): (r: string)
    ensures |r| == |s|
    ensures s != [] ==> r[0] == UpperCase(s[0])
    ensures forall i :: 0 < i < |s| ==> r[i] == s[i]
  {
    if s == [] then [] else [UpperCase(s[0])] + s[1..]
  }

  /** Capitalising twice is capitalising once. */
  lemma CapitalizeIdempotent(s: string)
    ensures Capitalize(Capitalize(s)) == Capitalize(s)
  {
    if s != [] {
      assert UpperCase(UpperCase(s[0])) == UpperCase(s[0]);
      assert Capitalize(s)[1..] == s[1..];
    }
  }

  /** The four lines of the tooltip (Navbar.tsx:126-129). */
  datatype Tooltip = Tooltip(database: string, api: string, status: string, authorized: string)

  /**
   * The API line (Navbar.tsx:127): "Unknown" only for a reported nil; with
   * no status at all the field is undefined, which is not null, so "Down".
   */
  function ApiText(status: Option<StatusResponse>): (t: string)
    ensures status.Some? && status.value.api.None? ==> t == "Unknown"
    ensures status.Some? && status.value.api == Some(true) ==> t == "Up"
    ensures status.None? || status.value.api == Some(false) ==> t == "Down"
  {
    match status
    case None => "Down"
    case Some(s) =>
      match s.api
      case None => "Unknown"
      case Some(up) => if up then "Up" else "Down"
  }

  function TooltipOf(status: Option<StatusResponse>): (t: Tooltip)
    ensures t.api == ApiText(status)
    ensures t.database == (if status.Some? && status.value.server then "Up" else "Down")
    ensures t.authorized == (if status.Some? && status.value.key then "Yes" else "No")
    ensures status.Some? && status.value.apiStatus != "" ==> t.status == Capitalize(status.value.apiStatus)
    ensures status.None? || status.value.apiStatus == "" ==> t.status == "Unknown"
  {
    match status
    case None => Tooltip("Down", ApiText(status), "Unknown", "No")
    case Some(s) =>
      Tooltip(
        if s.server then "Up" else "Down",
        ApiText(status),
        if s.apiStatus != "" then Capitalize(s.apiStatus) else "Unknown",
        if s.key then "Yes" else "No")
  }

  /**
   * The health pipeline from the status page to the dot: for a response
   * Status built from a key check and a scanned status, the dot is green
   * exactly when the API is operational and the key valid, orange exactly
   * during an outage, and the tooltip says "Unknown" exactly when the
   * status is unknown.
   */
  lemma StatusPipeline(key: bool, status: Status)
    ensures var response := StatusResponse(true, key, Api.ApiState(status), StatusText(status));
      && (StatusColor(Some(response)) == Green <==> status == Operational && key)
      && (StatusColor(Some(response)) == Orange <==> status in {DegradedPerformance, PartialOutage, MajorOutage})
      && (StatusColor(Some(response)) == Red <==> status == Unknown || (status == Operational && !key))
      && (TooltipOf(Some(response)).api == "Unknown" <==> status == Unknown)
      && TooltipOf(Some(response)).database == "Up"
  {
  }

  /** The optional callbacks of the navigation bar. */
  datatype Callback = OnBack | OnForward | OnSetting | OnStartOver

  /** What a handler did: ran a callback, or navigated. */
  /** What a handler does: run a callback, open a page, or show the start-over confirmation dialog. */
  datatype Effect = Ran(callback: Callback) | Navigated(path: string) | AskedStartOver

  /** The answers of the start-over dialog that confirm it (Navbar.tsx:82). */
  predicate Confirms(answer: string)
  {
    answer == "Yes" || answer == "Ok" || answer == "Continue"
  }

  /** The bar with its properties; `effects` records what its handlers did, in order. */
  class NavbarView {
    const disableBack: bool
    const disableForward: bool
    /** The callbacks the parent passed. */
    const callbacks: set<Callback>
    var effects: seq<Effect>

    constructor (disableBack: bool, disableForward: bool, callbacks: set<Callback>)
      ensures this.disableBack == disableBack && this.disableForward == disableForward
      ensures this.callbacks == callbacks && effects == []
    {
      this.disableBack := disableBack;
      this.disableForward := disableForward;
      this.callbacks := callbacks;
      effects := [];
    }

    /** handleBack (Navbar.tsx:67-71): onBack runs only when given and not disabled. */
    method HandleBack()
      modifies this
      ensures !disableBack && OnBack in callbacks ==> effects == old(effects) + [Ran(OnBack)]
      ensures disableBack || OnBack !in callbacks ==> effects == old(effects)
    {
      if !disableBack && OnBack in callbacks {
        effects := effects + [Ran(OnBack)];
      }
    }

    /** handleForward (Navbar.tsx:73-77). */
    method HandleForward()
      modifies this
      ensures !disableForward && OnForward in callbacks ==> effects == old(effects) + [Ran(OnForward)]
      ensures disableForward || OnForward !in callbacks ==> effects == old(effects)
    {
      if !disableForward && OnForward in callbacks {
        effects := effects + [Ran(OnForward)];
      }
    }

    /**
     * handleStartOver (Navbar.tsx:79-86), with `answer` what the
     * confirmation dialog would return: the dialog is shown only when
     * onStartOver is given, and onStartOver runs only when the answer is
     * "Yes", "Ok" or "Continue".
     */
    method HandleStartOver(answer: string)
      modifies this
      ensures OnStartOver in callbacks && (answer == "Yes" || answer == "Ok" || answer == "Continue") ==>
        effects == old(effects) + [AskedStartOver, Ran(OnStartOver)]
      ensures OnStartOver in callbacks && !(answer == "Yes" || answer == "Ok" || answer == "Continue") ==>
        effects == old(effects) + [AskedStartOver]
      ensures OnStartOver !in callbacks ==> effects == old(effects)
    {
      if OnStartOver in callbacks {
        effects := effects + [AskedStartOver];
        if Confirms(answer) {
          effects := effects + [Ran(OnStartOver)];
        }
      }
    }

    /** handleSettings (Navbar.tsx:88-94): onSetting runs if given, then the settings page opens regardless. */
    method HandleSettings()
      modifies this
      ensures effects == old(effects) + (if OnSetting in callbacks then [Ran(OnSetting)] else []) + [Navigated("/setting")]
    {
      if OnSetting in callbacks {
        effects := effects + [Ran(OnSetting)];
      }
      effects := effects + [Navigated("/setting")];
    }
  }
}
