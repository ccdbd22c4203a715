/** The per-modem call-settings object: the cached settings, the single pending request,
    and the handlers and driver callbacks that update them in place.

    Driver operations are asynchronous. `awaiting` records which callback the driver
    will call next (the continuation handed to the driver); each callback is a method
    that requires the matching `awaiting`. Everything the component sends (replies
    and PropertyChanged signals) is appended, in order, to the ghost log `outbox`. */
module CallSettings {
  import opened Types
  import opened Strings
  import opened Store
  import opened Admission
  import opened FetchChain

  /** The driver callback the pending request waits for. */
  datatype Awaiting =
    | Idle
    /** the completion of aggregate-fetch step `step` (0 COLR, 1 COLP, 2 CLIP, 3 CLIR) */
    | Fetching(step: nat)
    /** the completion of a "30"/"76"/"77" query */
    | SsQuerying
    /** the completion of a "31" CLIR set that asked for `option` */
    | ClirSsSetting(option: ClirOption)
    /** the completion of a "31" CLIR query, direct or after a set */
    | ClirSsQuerying
    /** the completion of a HideCallerId set that asked for `option` */
    | HideSetting(option: ClirOption)
    /** the completion of the query that confirms a HideCallerId set */
    | HideConfirming

  /** The setter a "30"/"76"/"77" query result goes to. */
  function SsUpdate(t: SettingType, v: ProvisionStatus): (u: Update)
    requires t != ClirSetting
    ensures (u.ClipTo? <==> t == ClipSetting) && (u.ColpTo? <==> t == ColpSetting)
    ensures (u.ClipTo? || u.ColpTo? || u.ColrTo?) && u.status == v
  {
    match t
    case ClipSetting => ClipTo(v)
    case ColpSetting => ColpTo(v)
    case ColrSetting => ColrTo(v)
  }

  /** The context string of a "30"/"76"/"77" reply. The COLR reply says
      "CallingLineRestriction", as the source has it. */
  function SsContext(t: SettingType): (c: string)
    requires t != ClirSetting
    ensures c == "CallingLinePresentation" <==> t == ClipSetting
    ensures c == "CalledLinePresentation" <==> t == ColpSetting
    ensures c == "CallingLineRestriction" <==> t == ColrSetting
  {
    match t
    case ClipSetting => "CallingLinePresentation"
    case ColpSetting => "CalledLinePresentation"
    case ColrSetting => "CallingLineRestriction"
  }

  class CallSettingsData {
    const ops: DriverOps
    var clip: ProvisionStatus
    var colp: ProvisionStatus
    var colr: ProvisionStatus
    var clir: ClirStatus
    var clirSetting: ClirOption
    /** the CACHED flag */
    var cached: bool
    /** the message awaiting a reply */
    var pending: Option<MsgId>
    var awaiting: Awaiting
    /** the request type tag of supplementary-service replies */
    var ssReqType: SsControlType
    var callSettingType: SettingType
    ghost var outbox: seq<Outgoing>

    function Snapshot(): Settings
      reads this
    {
      Settings(clip, colp, colr, clir, clirSetting)
    }

    ghost function Line(): LineState
      reads this
    {
      LineState(Snapshot(), cached, outbox)
    }

    /** The request bookkeeping, apart from the settings. */
    ghost function Control(): (Option<MsgId>, Awaiting, SsControlType, SettingType)
      reads this
    {
      (pending, awaiting, ssReqType, callSettingType)
    }

    /** A driver operation is outstanding only if the driver provides it. */
    ghost predicate AwaitingValid()
      reads this
    {
      match awaiting
      case Idle => true
      case Fetching(step) => step <= ClirStep && PresentAt(ops, step)
      case SsQuerying => callSettingType != ClirSetting && QueryPresent(ops, callSettingType)
      case ClirSsSetting(_) => ops.clirSet
      case ClirSsQuerying => ops.clirQuery
      case HideSetting(_) => ops.clirSet
      case HideConfirming => ops.clirQuery
    }

    /** The object invariant: a driver with a CLIR set also has the CLIR query, and a
        message is pending exactly while a driver operation is outstanding. */
    ghost predicate Valid()
      reads this
    {
      (ops.clirSet ==> ops.clirQuery)
      && (pending.None? <==> awaiting == Idle)
      && AwaitingValid()
    }

    /** How an aggregate-fetch step hands over to the next: the driver is asked for the
        next present query, or, when none is left, the properties reply is sent. */
    ghost predicate Resumed(k: nat, st: LineState, msg: MsgId)
      requires k <= 4
      reads this
    {
      var j := NextPresent(ops, k);
      if j < 4 then awaiting == Fetching(j) && pending == Some(msg) && Line() == st
      else awaiting == Idle && pending == None && Line() == Finish(st, msg)
    }

    /** A new modem: every status unknown, nothing cached, nothing pending. */
    constructor (ops: DriverOps)
      requires ops.clirSet ==> ops.clirQuery
      ensures Valid() && this.ops == ops
      ensures Snapshot() == Initial && !cached && outbox == []
      ensures Control() == (None, Idle, Activation, ClipSetting)
    {
      this.ops := ops;
      clip, colp, colr := StatusUnknown, StatusUnknown, StatusUnknown;
      clir := ClirUnknown;
      clirSetting := OptionDefault;
      cached := false;
      pending := None;
      awaiting := Idle;
      ssReqType := Activation;
      callSettingType := ClipSetting;
      outbox := [];
    }

    // The five change-gated setters.

    method SetClirNetwork(v: ClirStatus)
      modifies this
      ensures Line() == Assign(old(Line()), ClirTo(v)) && Control() == old(Control())
    {
      if clir != v {
        clir := v;
        outbox := outbox + [PropertyChanged("CallingLineRestriction", ClirStatusToString(v))];
      }
    }

    method SetClirOverride(v: ClirOption)
      modifies this
      ensures Line() == Assign(old(Line()), OverrideTo(v)) && Control() == old(Control())
    {
      if clirSetting != v {
        clirSetting := v;
        outbox := outbox + [PropertyChanged("HideCallerId", HideCallerIdToString(v))];
      }
    }

    method SetClip(v: ProvisionStatus)
      modifies this
      ensures Line() == Assign(old(Line()), ClipTo(v)) && Control() == old(Control())
    {
      if clip != v {
        clip := v;
        outbox := outbox + [PropertyChanged("CallingLinePresentation", StatusToString(v))];
      }
    }

    method SetColp(v: ProvisionStatus)
      modifies this
      ensures Line() == Assign(old(Line()), ColpTo(v)) && Control() == old(Control())
    {
      if colp != v {
        colp := v;
        outbox := outbox + [PropertyChanged("CalledLinePresentation", StatusToString(v))];
      }
    }

    method SetColr(v: ProvisionStatus)
      modifies this
      ensures Line() == Assign(old(Line()), ColrTo(v)) && Control() == old(Control())
    {
      if colr != v {
        colr := v;
        outbox := outbox + [PropertyChanged("CalledLineRestriction", StatusToString(v))];
      }
    }

    /** Sends a reply to the pending message and clears it. */
    method ReplyPending(r: Reply)
      requires pending.Some?
      modifies this
      ensures Line() == old(Line()).(out := old(outbox) + [Replied(old(pending).value, r)])
      ensures Control() == (None, Idle, old(ssReqType), old(callSettingType))
    {
      outbox := outbox + [Replied(pending.value, r)];
      pending := None;
      awaiting := Idle;
    }

    /** Sends an immediate reply to a message that was not admitted. */
    method Send(msg: MsgId, r: Reply)
      modifies this
      ensures Line() == old(Line()).(out := old(outbox) + [Replied(msg, r)])
      ensures Control() == old(Control())
    {
      outbox := outbox + [Replied(msg, r)];
    }

    // The "30"/"76"/"77" supplementary-service handler.

    method ClipColpColrSs(t: SsControlType, sc: string, sia: string, sib: string, sic: string,
                          dn: string, msg: MsgId) returns (handled: bool)
      requires Valid()
      modifies this
      ensures Valid()
      ensures var a := SsQueryAdmission(old(pending).Some?, ops, t, sc, sia, sib, sic, dn);
        && handled == Handled(a)
        && Snapshot() == old(Snapshot()) && cached == old(cached) && ssReqType == old(ssReqType)
        && callSettingType == (if old(pending).None? && SettingOfCode(sc).Some?
                               then SettingOfCode(sc).value else old(callSettingType))
        && (a == Decline ==> outbox == old(outbox) && Control() == old(Control()))
        && (a.Reject? ==> outbox == old(outbox) + [Replied(msg, ErrorReply(a.error))]
                          && pending == old(pending) && awaiting == old(awaiting))
        && (a.StartSsQuery? ==> outbox == old(outbox) && pending == Some(msg) && awaiting == SsQuerying
                                && callSettingType == a.setting)
    {
      if pending.Some? {
        Send(msg, ErrorReply(Busy));
        return true;
      }
      var present: bool;
      ghost var setting := SettingOfCode(sc);
      if sc == "30" {
        callSettingType := ClipSetting;
        present := ops.clipQuery;
      } else if sc == "76" {
        callSettingType := ColpSetting;
        present := ops.colpQuery;
      } else if sc == "77" {
        callSettingType := ColrSetting;
        present := ops.colrQuery;
      } else {
        return false;
      }
      assert setting.Some? && setting.value == callSettingType && present == QueryPresent(ops, setting.value);
      if t != Query || sia != "" || sib != "" || sic != "" || dn != "" {
        Send(msg, ErrorReply(InvalidFormat));
        return true;
      }
      if !present {
        Send(msg, ErrorReply(NotImplemented));
        return true;
      }
      pending := Some(msg);
      awaiting := SsQuerying;
      return true;
    }

    /** The driver's answer to a "30"/"76"/"77" query: on success the field is set (and
        signalled) first, then the reply carries the value under the current request tag. */
    method SsQueryDone(res: DriverResult<ProvisionStatus>)
      requires Valid() && awaiting == SsQuerying
      modifies this
      ensures Valid() && Control() == (None, Idle, old(ssReqType), old(callSettingType))
      ensures res.DriverError? ==>
                Line() == old(Line()).(out := old(outbox) + [Replied(old(pending).value, ErrorReply(Failed))])
      ensures res.Done? ==>
                var u := SsUpdate(old(callSettingType), res.value);
                var reply := SsReply(SsContext(old(callSettingType)), old(ssReqType), StatusToString(res.value));
                Line() == Assign(old(Line()), u).(out := Assign(old(Line()), u).out
                                                          + [Replied(old(pending).value, reply)])
    {
      if res.DriverError? {
        ReplyPending(ErrorReply(Failed));
        return;
      }
      var v := res.value;
      match callSettingType
      case ClipSetting =>
        SetClip(v);
        ReplyPending(SsReply("CallingLinePresentation", ssReqType, StatusToString(v)));
      case ColpSetting =>
        SetColp(v);
        ReplyPending(SsReply("CalledLinePresentation", ssReqType, StatusToString(v)));
      case ColrSetting =>
        SetColr(v);
        ReplyPending(SsReply("CallingLineRestriction", ssReqType, StatusToString(v)));
      case ClirSetting =>
        assert false;
    }

    // The "31" supplementary-service handler.

    method ClirSsControl(t: SsControlType, sc: string, sia: string, sib: string, sic: string,
                         dn: string, msg: MsgId) returns (handled: bool)
      requires Valid()
      modifies this
      ensures Valid()
      ensures var a := ClirSsAdmission(old(pending).Some?, ops, t, sc, sia, sib, sic, dn);
        && handled == Handled(a)
        && Snapshot() == old(Snapshot()) && cached == old(cached)
        && (a == Decline ==> outbox == old(outbox) && Control() == old(Control()))
        && (a.Reject? ==> outbox == old(outbox) + [Replied(msg, ErrorReply(a.error))]
                          && Control() == old(Control()))
        && (a == StartClirQuery ==>
              outbox == old(outbox) && Control() == (Some(msg), ClirSsQuerying, Query, ClirSetting))
        && (a.StartClirSet? ==>
              outbox == old(outbox) && Control() == (Some(msg), ClirSsSetting(a.option), a.tag, ClirSetting))
    {
      if sc != "31" {
        return false;
      }
      if pending.Some? {
        Send(msg, ErrorReply(Busy));
        return true;
      }
      if sia == "" && sib == "" && sic == "" && dn != "" && t != Query {
        return false;
      }
      if sia != "" || sib != "" || sic != "" || dn != "" {
        Send(msg, ErrorReply(InvalidFormat));
        return true;
      }
      if (t == Query && !ops.clirQuery) || (t != Query && !ops.clirSet) {
        Send(msg, ErrorReply(NotImplemented));
        return true;
      }
      callSettingType := ClirSetting;
      pending := Some(msg);
      match t {
        case Registration =>
          ssReqType := Activation;
          awaiting := ClirSsSetting(Invocation);
        case Activation =>
          ssReqType := Activation;
          awaiting := ClirSsSetting(Invocation);
        case Query =>
          ssReqType := Query;
          awaiting := ClirSsQuerying;
        case Deactivation =>
          ssReqType := Deactivation;
          awaiting := ClirSsSetting(Suppression);
        case Erasure =>
          ssReqType := Deactivation;
          awaiting := ClirSsSetting(Suppression);
      }
      return true;
    }

    /** The driver's answer to a "31" set: an error fails the request; a success is
        always followed by a CLIR query, whose answer alone forms the reply. */
    method ClirSsSetDone(res: DriverResult<()>)
      requires Valid() && awaiting.ClirSsSetting?
      modifies this
      ensures Valid() && Snapshot() == old(Snapshot()) && cached == old(cached)
      ensures ssReqType == old(ssReqType) && callSettingType == old(callSettingType)
      ensures res.DriverError? ==>
                outbox == old(outbox) + [Replied(old(pending).value, ErrorReply(Failed))]
                && pending == None && awaiting == Idle
      ensures res.Done? ==> outbox == old(outbox) && pending == old(pending) && awaiting == ClirSsQuerying
    {
      if res.DriverError? {
        ReplyPending(ErrorReply(Failed));
        return;
      }
      awaiting := ClirSsQuerying;
    }

    /** The driver's answer to a "31" query: on success the composite value is replied
        first, then the network status and the override are set (and signalled). An
        error fails the request and updates nothing. */
    method ClirSsQueryDone(res: DriverResult<ClirAnswer>)
      requires Valid() && awaiting == ClirSsQuerying
      modifies this
      ensures Valid() && Control() == (None, Idle, old(ssReqType), old(callSettingType))
      ensures res.DriverError? ==>
                Line() == old(Line()).(out := old(outbox) + [Replied(old(pending).value, ErrorReply(Failed))])
      ensures res.Done? ==>
                var reply := SsReply("CallingLineRestriction", old(ssReqType),
                                     CompositeClirValue(res.value.network, res.value.override));
                var replied := old(Line()).(out := old(outbox) + [Replied(old(pending).value, reply)]);
                Line() == Assign(Assign(replied, ClirTo(res.value.network)), OverrideTo(res.value.override))
    {
      if res.DriverError? {
        ReplyPending(ErrorReply(Failed));
        return;
      }
      var network, override := res.value.network, res.value.override;
      ReplyPending(SsReply("CallingLineRestriction", ssReqType, CompositeClirValue(network, override)));
      SetClirNetwork(network);
      SetClirOverride(override);
    }

    // GetProperties and the aggregate fetch.

    /** GetProperties: Busy while a request is pending; the cached values at once when
        CACHED is set, with no driver call; otherwise the message becomes pending and the
        fetch starts at the COLR step. */
    method GetProperties(msg: MsgId)
      requires Valid()
      modifies this
      ensures Valid() && ssReqType == old(ssReqType) && callSettingType == old(callSettingType)
      ensures var a := GetPropertiesAdmission(old(pending).Some?, old(cached));
        && (a == Reject(Busy) ==>
              Line() == old(Line()).(out := old(outbox) + [Replied(msg, ErrorReply(Busy))])
              && Control() == old(Control()))
        && (a == ReplyCached ==> Line() == Finish(old(Line()), msg) && Control() == old(Control()))
        && (a == StartFetch ==> Resumed(0, old(Line()), msg))
    {
      if pending.Some? {
        Send(msg, ErrorReply(Busy));
        return;
      }
      if cached {
        Send(msg, PropertiesReply(Displayed(Snapshot())));
        return;
      }
      pending := Some(msg);
      QueryColr();
    }

    method QueryColr()
      requires (ops.clirSet ==> ops.clirQuery) && pending.Some? && awaiting == Idle
      modifies this
      ensures Valid() && Resumed(0, old(Line()), old(pending).value)
      ensures ssReqType == old(ssReqType) && callSettingType == old(callSettingType)
    {
      if !ops.colrQuery {
        QueryColp();
        return;
      }
      awaiting := Fetching(0);
    }

    method QueryColp()
      requires (ops.clirSet ==> ops.clirQuery) && pending.Some? && awaiting == Idle
      modifies this
      ensures Valid() && Resumed(1, old(Line()), old(pending).value)
      ensures ssReqType == old(ssReqType) && callSettingType == old(callSettingType)
    {
      if !ops.colpQuery {
        QueryClip();
        return;
      }
      awaiting := Fetching(1);
    }

    method QueryClip()
      requires (ops.clirSet ==> ops.clirQuery) && pending.Some? && awaiting == Idle
      modifies this
      ensures Valid() && Resumed(2, old(Line()), old(pending).value)
      ensures ssReqType == old(ssReqType) && callSettingType == old(callSettingType)
    {
      if !ops.clipQuery {
        QueryClir();
        return;
      }
      awaiting := Fetching(2);
    }

    /** The last step; without a CLIR query the fetch ends with the cached values. */
    method QueryClir()
      requires (ops.clirSet ==> ops.clirQuery) && pending.Some? && awaiting == Idle
      modifies this
      ensures Valid() && Resumed(3, old(Line()), old(pending).value)
      ensures ssReqType == old(ssReqType) && callSettingType == old(callSettingType)
    {
      if !ops.clirQuery {
        ReplyPending(PropertiesReply(Displayed(Snapshot())));
        return;
      }
      awaiting := Fetching(ClirStep);
    }

    method ColrFetched(res: DriverResult<ProvisionStatus>)
      requires Valid() && awaiting == Fetching(0)
      modifies this
      ensures Valid() && Resumed(1, StatusStepDone(old(Line()), 0, res), old(pending).value)
      ensures ssReqType == old(ssReqType) && callSettingType == old(callSettingType)
    {
      awaiting := Idle;
      if res.Done? {
        SetColr(res.value);
      }
      QueryColp();
    }

    method ColpFetched(res: DriverResult<ProvisionStatus>)
      requires Valid() && awaiting == Fetching(1)
      modifies this
      ensures Valid() && Resumed(2, StatusStepDone(old(Line()), 1, res), old(pending).value)
      ensures ssReqType == old(ssReqType) && callSettingType == old(callSettingType)
    {
      awaiting := Idle;
      if res.Done? {
        SetColp(res.value);
      }
      QueryClip();
    }

    method ClipFetched(res: DriverResult<ProvisionStatus>)
      requires Valid() && awaiting == Fetching(2)
      modifies this
      ensures Valid() && Resumed(3, StatusStepDone(old(Line()), 2, res), old(pending).value)
      ensures ssReqType == old(ssReqType) && callSettingType == old(callSettingType)
    {
      awaiting := Idle;
      if res.Done? {
        SetClip(res.value);
      }
      QueryClir();
    }

    /** The CLIR step's answer: on success network status and override are set and
        CACHED is raised; either way the properties reply ends the fetch. */
    method ClirFetched(res: DriverResult<ClirAnswer>)
      requires Valid() && awaiting == Fetching(ClirStep)
      modifies this
      ensures Valid() && Line() == ClirStepDone(old(Line()), res, old(pending).value)
      ensures Control() == (None, Idle, old(ssReqType), old(callSettingType))
    {
      if res.Done? {
        SetClirNetwork(res.value.network);
        SetClirOverride(res.value.override);
        cached := true;
      }
      ReplyPending(PropertiesReply(Displayed(Snapshot())));
    }

    /** GetProperties followed by the driver's completions of the fetch it starts,
        delivered one at a time as the main loop delivers them: the result is the
        aggregate fetch FetchChain.Fetch of the answers. */
    method FetchRound(msg: MsgId, ans: FetchAnswers)
      requires Valid()
      modifies this
      ensures Valid() && ssReqType == old(ssReqType) && callSettingType == old(callSettingType)
      ensures old(pending).Some? ==>
                Line() == old(Line()).(out := old(outbox) + [Replied(msg, ErrorReply(Busy))])
                && Control() == old(Control())
      ensures old(pending).None? ==> pending == None && awaiting == Idle
      ensures old(pending).None? && old(cached) ==> Line() == Finish(old(Line()), msg)
      ensures old(pending).None? && !old(cached) ==> Line() == Fetch(ops, ans, msg, old(Line()))
    {
      var fetching := pending.None? && !cached;
      GetProperties(msg);
      if !fetching {
        return;
      }
      ghost var target := Fetch(ops, ans, msg, old(Line()));
      SkipAbsent(ops, ans, msg, 0, old(Line()));
      while awaiting.Fetching?
        invariant Valid() && ssReqType == old(ssReqType) && callSettingType == old(callSettingType)
        invariant awaiting.Idle? || awaiting.Fetching?
        invariant awaiting.Fetching? ==>
                    pending == Some(msg) && FetchFrom(ops, ans, msg, awaiting.step, Line()) == target
        invariant awaiting.Idle? ==> pending == None && Line() == target
        decreases if awaiting.Fetching? then 4 - awaiting.step else 0
      {
        ghost var st := Line();
        var step := awaiting.step;
        if step == 0 {
          ColrFetched(ans.colr);
          SkipAbsent(ops, ans, msg, 1, StatusStepDone(st, 0, ans.colr));
        } else if step == 1 {
          ColpFetched(ans.colp);
          SkipAbsent(ops, ans, msg, 2, StatusStepDone(st, 1, ans.colp));
        } else if step == 2 {
          ClipFetched(ans.clip);
          SkipAbsent(ops, ans, msg, 3, StatusStepDone(st, 2, ans.clip));
        } else {
          ClirFetched(ans.clir);
        }
      }
    }

    // SetProperty("HideCallerId", ...) and its set-then-confirm workflow.

    method SetProperty(args: seq<DBusArg>, msg: MsgId)
      requires Valid()
      modifies this
      ensures Valid() && Snapshot() == old(Snapshot()) && cached == old(cached)
      ensures ssReqType == old(ssReqType) && callSettingType == old(callSettingType)
      ensures var a := SetPropertyAdmission(old(pending).Some?, ops, args);
        && (a.Reject? ==> outbox == old(outbox) + [Replied(msg, ErrorReply(a.error))]
                          && Control() == old(Control()))
        && (a.StartHideSet? ==> outbox == old(outbox) && pending == Some(msg) && awaiting == HideSetting(a.option))
    {
      if pending.Some? {
        Send(msg, ErrorReply(Busy));
        return;
      }
      if |args| == 0 || !args[0].Str? {
        Send(msg, ErrorReply(InvalidArgs));
        return;
      }
      if |args| == 1 || !args[1].Variant? {
        Send(msg, ErrorReply(InvalidArgs));
        return;
      }
      if args[0].s == "HideCallerId" {
        if !args[1].inner.Str? {
          Send(msg, ErrorReply(InvalidFormat));
          return;
        }
        SetClir(args[1].inner.s, msg);
        return;
      }
      Send(msg, ErrorReply(InvalidArgs));
    }

    /** The HideCallerId set: NotImplemented without a CLIR set, InvalidFormat for an
        unknown literal, otherwise the driver is asked to set the override. */
    method SetClir(setting: string, msg: MsgId)
      requires Valid() && pending.None?
      modifies this
      ensures Valid() && Snapshot() == old(Snapshot()) && cached == old(cached)
      ensures ssReqType == old(ssReqType) && callSettingType == old(callSettingType)
      ensures !ops.clirSet ==>
                outbox == old(outbox) + [Replied(msg, ErrorReply(NotImplemented))] && Control() == old(Control())
      ensures ops.clirSet && ParseHideCallerId(setting).None? ==>
                outbox == old(outbox) + [Replied(msg, ErrorReply(InvalidFormat))] && Control() == old(Control())
      ensures ops.clirSet && ParseHideCallerId(setting).Some? ==>
                outbox == old(outbox) && pending == Some(msg)
                && awaiting == HideSetting(ParseHideCallerId(setting).value)
    {
      if !ops.clirSet {
        Send(msg, ErrorReply(NotImplemented));
        return;
      }
      var option: ClirOption;
      if setting == "default" {
        option := OptionDefault;
      } else if setting == "enabled" {
        option := Invocation;
      } else if setting == "disabled" {
        option := Suppression;
      } else {
        Send(msg, ErrorReply(InvalidFormat));
        return;
      }
      pending := Some(msg);
      awaiting := HideSetting(option);
    }

    /** The driver's answer to the HideCallerId set: an error fails the request; a
        success is confirmed by a CLIR query before anything is reported. */
    method ClirSetDone(res: DriverResult<()>)
      requires Valid() && awaiting.HideSetting?
      modifies this
      ensures Valid() && Snapshot() == old(Snapshot()) && cached == old(cached)
      ensures ssReqType == old(ssReqType) && callSettingType == old(callSettingType)
      ensures res.DriverError? ==>
                outbox == old(outbox) + [Replied(old(pending).value, ErrorReply(Failed))]
                && pending == None && awaiting == Idle
      ensures res.Done? ==> outbox == old(outbox) && pending == old(pending) && awaiting == HideConfirming
    {
      if res.DriverError? {
        ReplyPending(ErrorReply(Failed));
        return;
      }
      awaiting := HideConfirming;
    }

    /** The confirming query's answer. A failure after a successful set clears CACHED,
        replies Failed and leaves the settings alone; a success replies with an empty
        return first, then sets (and signals) the override and the network status. */
    method ClirSetQueryDone(res: DriverResult<ClirAnswer>)
      requires Valid() && awaiting == HideConfirming
      modifies this
      ensures Valid() && Control() == (None, Idle, old(ssReqType), old(callSettingType))
      ensures res.DriverError? ==>
                Line() == LineState(old(Snapshot()), false,
                                    old(outbox) + [Replied(old(pending).value, ErrorReply(Failed))])
      ensures res.Done? ==>
                var replied := old(Line()).(out := old(outbox) + [Replied(old(pending).value, EmptyReply)]);
                Line() == Assign(Assign(replied, OverrideTo(res.value.override)), ClirTo(res.value.network))
    {
      if res.DriverError? {
        cached := false;
        ReplyPending(ErrorReply(Failed));
        return;
      }
      ReplyPending(EmptyReply);
      SetClirOverride(res.value.override);
      SetClirNetwork(res.value.network);
    }
  }
}
