/** What each entry point decides before any driver call: decline, reject at once,
    answer from the cache, or start an operation. */
module Admission {
  import opened Types
  import opened Strings

  /** The decision an entry point takes when a request arrives. */
  datatype Admission =
    /** the handler does not handle the control string (it returns FALSE) */
    | Decline
    /** an immediate error reply; nothing is started */
    | Reject(error: Error)
    /** GetProperties answered from the cached fields */
    | ReplyCached
    /** the aggregate fetch is started */
    | StartFetch
    /** a single-setting query ("30", "76" or "77") is started */
    | StartSsQuery(setting: SettingType)
    /** a CLIR query ("31" interrogation) is started */
    | StartClirQuery
    /** a CLIR set ("31" activation, registration, deactivation or erasure) is started */
    | StartClirSet(option: ClirOption, tag: SsControlType)
    /** a HideCallerId set (SetProperty) is started */
    | StartHideSet(option: ClirOption)

  /** Whether an SS handler reports the control string as handled. */
  predicate Handled(a: Admission)
  {
    a != Decline
  }

  /** The setting a single-setting code queries. */
  function SettingOfCode(sc: string): (r: Option<SettingType>)
    ensures r.Some? <==> sc in {"30", "76", "77"}
    ensures sc == "30" ==> r == Some(ClipSetting)
    ensures sc == "76" ==> r == Some(ColpSetting)
    ensures sc == "77" ==> r == Some(ColrSetting)
  {
    if sc == "30" then Some(ClipSetting)
    else if sc == "76" then Some(ColpSetting)
    else if sc == "77" then Some(ColrSetting)
    else None
  }

  /** Whether the driver provides the query for a single setting. */
  predicate QueryPresent(ops: DriverOps, t: SettingType)
  {
    match t
    case ClipSetting => ops.clipQuery
    case ColpSetting => ops.colpQuery
    case ColrSetting => ops.colrQuery
    case ClirSetting => ops.clirQuery
  }

  /** No supplementary information and no dialled number. */
  predicate NoArguments(sia: string, sib: string, sic: string, dn: string)
  {
    sia == "" && sib == "" && sic == "" && dn == ""
  }

  /** The decision of the "30"/"76"/"77" handler. The busy check comes before the
      code match, so a busy modem answers Busy to any code routed here. */
  function SsQueryAdmission(busy: bool, ops: DriverOps, t: SsControlType,
                            sc: string, sia: string, sib: string, sic: string, dn: string): (r: Admission)
    ensures r == Reject(Busy) <==> busy
    ensures r == Decline <==> !busy && sc !in {"30", "76", "77"}
    ensures r == Reject(InvalidFormat) <==>
              !busy && sc in {"30", "76", "77"} && !(t == Query && NoArguments(sia, sib, sic, dn))
    ensures r == Reject(NotImplemented) <==>
              !busy && sc in {"30", "76", "77"} && t == Query && NoArguments(sia, sib, sic, dn)
              && !QueryPresent(ops, SettingOfCode(sc).value)
    ensures r.StartSsQuery? <==>
              !busy && sc in {"30", "76", "77"} && t == Query && NoArguments(sia, sib, sic, dn)
              && QueryPresent(ops, SettingOfCode(sc).value)
    ensures r.StartSsQuery? ==> SettingOfCode(sc) == Some(r.setting) && QueryPresent(ops, r.setting)
    ensures r in {Decline, Reject(Busy), Reject(InvalidFormat), Reject(NotImplemented)} || r.StartSsQuery?
  {
    if busy then Reject(Busy)
    else match SettingOfCode(sc)
      case None => Decline
      case Some(setting) =>
        if t != Query || sia != "" || sib != "" || sic != "" || dn != "" then Reject(InvalidFormat)
        else if !QueryPresent(ops, setting) then Reject(NotImplemented)
        else StartSsQuery(setting)
  }

  /** The temporary (per-call) CLIR form: not an interrogation, no supplementary
      information, a dialled number. It belongs to call origination. */
  predicate TemporaryClirForm(t: SsControlType, sia: string, sib: string, sic: string, dn: string)
  {
    sia == "" && sib == "" && sic == "" && dn != "" && t != Query
  }

  /** The override a "31" set requests, with the tag its reply carries. */
  function ClirSetRequest(t: SsControlType): (r: (ClirOption, SsControlType))
    requires t != Query
    ensures r.0 == Invocation <==> t in {Activation, Registration}
    ensures r.0 == Suppression <==> t in {Deactivation, Erasure}
    ensures r.1 == (if r.0 == Invocation then Activation else Deactivation)
  {
    match t
    case Activation => (Invocation, Activation)
    case Registration => (Invocation, Activation)
    case Deactivation => (Suppression, Deactivation)
    case Erasure => (Suppression, Deactivation)
  }

  /** The decision of the "31" handler: code match, then busy, then the temporary
      form, then arguments, then the capability the control type needs. */
  function ClirSsAdmission(busy: bool, ops: DriverOps, t: SsControlType,
                           sc: string, sia: string, sib: string, sic: string, dn: string): (r: Admission)
    ensures r == Decline <==> sc != "31" || (!busy && TemporaryClirForm(t, sia, sib, sic, dn))
    ensures sc == "31" && busy ==> r == Reject(Busy)
    ensures r == Reject(InvalidFormat) <==>
              sc == "31" && !busy && !TemporaryClirForm(t, sia, sib, sic, dn) && !NoArguments(sia, sib, sic, dn)
    ensures r == Reject(NotImplemented) <==>
              sc == "31" && !busy && NoArguments(sia, sib, sic, dn)
              && (if t == Query then !ops.clirQuery else !ops.clirSet)
    ensures r == StartClirQuery <==>
              sc == "31" && !busy && NoArguments(sia, sib, sic, dn) && t == Query && ops.clirQuery
    ensures r.StartClirSet? <==>
              sc == "31" && !busy && NoArguments(sia, sib, sic, dn) && t != Query && ops.clirSet
    ensures r.StartClirSet? ==> t != Query && (r.option, r.tag) == ClirSetRequest(t)
    ensures r in {Decline, Reject(Busy), Reject(InvalidFormat), Reject(NotImplemented), StartClirQuery}
            || r.StartClirSet?
  {
    if sc != "31" then Decline
    else if busy then Reject(Busy)
    else if TemporaryClirForm(t, sia, sib, sic, dn) then Decline
    else if sia != "" || sib != "" || sic != "" || dn != "" then Reject(InvalidFormat)
    else if (t == Query && !ops.clirQuery) || (t != Query && !ops.clirSet) then Reject(NotImplemented)
    else if t == Query then StartClirQuery
    else
      var (option, tag) := ClirSetRequest(t);
      StartClirSet(option, tag)
  }

  /** The decision of GetProperties. */
  function GetPropertiesAdmission(busy: bool, cached: bool): (r: Admission)
    ensures r == Reject(Busy) <==> busy
    ensures r == ReplyCached <==> !busy && cached
    ensures r == StartFetch <==> !busy && !cached
  {
    if busy then Reject(Busy)
    else if cached then ReplyCached
    else StartFetch
  }

  /** The arguments of a SetProperty call that sets HideCallerId to `v`. */
  function HideCallerIdCall(v: string): seq<DBusArg>
  {
    [Str("HideCallerId"), Variant(Str(v))]
  }

  /** Whether a SetProperty call has the shape the handler reads: a property name
      string, then a variant. */
  predicate PropertyCallShape(args: seq<DBusArg>)
  {
    |args| >= 2 && args[0].Str? && args[1].Variant?
  }

  /** The HideCallerId setting a SetProperty call carries, if it carries one. Arguments
      after the second are not read. */
  function HideCallerIdArgument(args: seq<DBusArg>): (r: Option<string>)
    ensures r.Some? ==> |args| >= 2 && args[..2] == HideCallerIdCall(r.value)
  {
    if |args| >= 2 && args[0] == Str("HideCallerId") && args[1].Variant? && args[1].inner.Str?
    then Some(args[1].inner.s)
    else None
  }

  /** The decision of SetProperty. */
  function SetPropertyAdmission(busy: bool, ops: DriverOps, args: seq<DBusArg>): (r: Admission)
    ensures busy ==> r == Reject(Busy)
    ensures r.StartHideSet? <==>
              !busy && ops.clirSet && HideCallerIdArgument(args).Some?
              && ParseHideCallerId(HideCallerIdArgument(args).value).Some?
    ensures r.StartHideSet? ==> HideCallerIdToString(r.option) == HideCallerIdArgument(args).value
    ensures r == Reject(NotImplemented) <==> !busy && HideCallerIdArgument(args).Some? && !ops.clirSet
    ensures r == Reject(Busy) <==> busy
    ensures r == Reject(InvalidArgs) <==>
              !busy && !(PropertyCallShape(args) && args[0] == Str("HideCallerId"))
    ensures r == Reject(InvalidFormat) <==>
              !busy && PropertyCallShape(args) && args[0] == Str("HideCallerId")
              && (!args[1].inner.Str? || (ops.clirSet && ParseHideCallerId(args[1].inner.s).None?))
    ensures r in {Reject(Busy), Reject(InvalidArgs), Reject(InvalidFormat), Reject(NotImplemented)}
            || r.StartHideSet?
  {
    if busy then Reject(Busy)
    else if |args| == 0 || !args[0].Str? then Reject(InvalidArgs)
    else if |args| == 1 || !args[1].Variant? then Reject(InvalidArgs)
    else if args[0].s != "HideCallerId" then Reject(InvalidArgs)
    else if !args[1].inner.Str? then Reject(InvalidFormat)
    else if !ops.clirSet then Reject(NotImplemented)
    else match ParseHideCallerId(args[1].inner.s)
      case None => Reject(InvalidFormat)
      case Some(option) =>
        HideCallerIdRoundTrip(option, args[1].inner.s);
        StartHideSet(option)
  }

  /** A call that names HideCallerId and carries a string is read back as that string,
      whatever follows it. */
  lemma HideCallerIdArgumentDecodes(v: string, rest: seq<DBusArg>)
    ensures HideCallerIdArgument(HideCallerIdCall(v) + rest) == Some(v)
  {
    var args := HideCallerIdCall(v) + rest;
    assert args[0] == Str("HideCallerId") && args[1] == Variant(Str(v));
  }

  /** The handler a control code is bound to. */
  datatype Handler = ClipColpColrHandler | ClirHandler

  /** The control codes this component binds, with their handlers; "77" only when
      the driver can query COLR. */
  function SsBindings(ops: DriverOps): (r: map<string, Handler>)
    ensures r.Keys == {"30", "31", "76"} + (if ops.colrQuery then {"77"} else {})
    ensures forall sc :: sc in r ==> (r[sc] == ClirHandler <==> sc == "31")
  {
    var base := map["30" := ClipColpColrHandler, "31" := ClirHandler, "76" := ClipColpColrHandler];
    if ops.colrQuery then base["77" := ClipColpColrHandler] else base
  }

  /** The decision of the handler a code is bound to. */
  function Dispatch(ops: DriverOps, busy: bool, sc: string, t: SsControlType,
                    sia: string, sib: string, sic: string, dn: string): (r: Admission)
    requires sc in SsBindings(ops)
    ensures sc == "31" ==> r == ClirSsAdmission(busy, ops, t, sc, sia, sib, sic, dn)
    ensures sc != "31" ==> r == SsQueryAdmission(busy, ops, t, sc, sia, sib, sic, dn)
  {
    match SsBindings(ops)[sc]
    case ClipColpColrHandler => SsQueryAdmission(busy, ops, t, sc, sia, sib, sic, dn)
    case ClirHandler => ClirSsAdmission(busy, ops, t, sc, sia, sib, sic, dn)
  }

  /** A bound code is never declined for its code, and a "77" query never meets a
      missing COLR query; only the temporary CLIR form is passed on. */
  lemma BoundCodesAreHandled(ops: DriverOps, busy: bool, sc: string, t: SsControlType,
                             sia: string, sib: string, sic: string, dn: string)
    requires sc in SsBindings(ops)
    ensures Dispatch(ops, busy, sc, t, sia, sib, sic, dn) == Decline <==>
              sc == "31" && !busy && TemporaryClirForm(t, sia, sib, sic, dn)
    ensures sc == "77" ==> Dispatch(ops, busy, sc, t, sia, sib, sic, dn) != Reject(NotImplemented)
  {
  }

  /** Single flight: while a request is pending every entry point answers Busy,
      whatever the request, except that a code not bound to the "31" handler is not its business. */
  lemma BusyRejectsEveryRequest(ops: DriverOps, cached: bool, sc: string, t: SsControlType,
                                sia: string, sib: string, sic: string, dn: string, args: seq<DBusArg>)
    ensures GetPropertiesAdmission(true, cached) == Reject(Busy)
    ensures SetPropertyAdmission(true, ops, args) == Reject(Busy)
    ensures SsQueryAdmission(true, ops, t, sc, sia, sib, sic, dn) == Reject(Busy)
    ensures sc == "31" ==> ClirSsAdmission(true, ops, t, sc, sia, sib, sic, dn) == Reject(Busy)
    ensures sc in SsBindings(ops) ==> Dispatch(ops, true, sc, t, sia, sib, sic, dn) == Reject(Busy)
  {
  }

  /** A well-formed "31" set asks for exactly the override its control type names. */
  lemma ClirSetTypes(ops: DriverOps, t: SsControlType)
    requires ops.clirSet && t != Query
    ensures ClirSsAdmission(false, ops, t, "31", "", "", "", "") ==
              (if t in {Activation, Registration} then StartClirSet(Invocation, Activation)
               else StartClirSet(Suppression, Deactivation))
  {
  }
}
