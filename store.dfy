/** The five cached settings and their change-gated setters, as values. */
module Store {
  import opened Types
  import opened Strings

  /** A snapshot of the cached settings of one modem. */
  datatype Settings = Settings(
    clip: ProvisionStatus,
    colp: ProvisionStatus,
    colr: ProvisionStatus,
    clir: ClirStatus,
    clirSetting: ClirOption)

  /** The settings of a freshly created modem: every status unknown, the override default. */
  const Initial := Settings(StatusUnknown, StatusUnknown, StatusUnknown, ClirUnknown, OptionDefault)

  /** One setter call: the property it writes and the value it writes. */
  datatype Update =
    | ClipTo(status: ProvisionStatus)
    | ColpTo(status: ProvisionStatus)
    | ColrTo(status: ProvisionStatus)
    | ClirTo(network: ClirStatus)
    | OverrideTo(option: ClirOption)

  /** The properties as (name, value) pairs in the order of the reply. */
  function Displayed(s: Settings): (r: seq<(string, string)>)
    ensures |r| == 5
  {
    [("CallingLinePresentation", StatusToString(s.clip)),
     ("CalledLinePresentation", StatusToString(s.colp)),
     ("CalledLineRestriction", StatusToString(s.colr)),
     ("CallingLineRestriction", ClirStatusToString(s.clir)),
     ("HideCallerId", HideCallerIdToString(s.clirSetting))]
  }

  /** The position in Displayed of the property an update writes. */
  function Slot(u: Update): (i: nat)
    ensures i < 5
  {
    match u
    case ClipTo(_) => 0
    case ColpTo(_) => 1
    case ColrTo(_) => 2
    case ClirTo(_) => 3
    case OverrideTo(_) => 4
  }

  /** The property name and display string an update announces. */
  function Announced(u: Update): (string, string)
  {
    match u
    case ClipTo(v) => ("CallingLinePresentation", StatusToString(v))
    case ColpTo(v) => ("CalledLinePresentation", StatusToString(v))
    case ColrTo(v) => ("CalledLineRestriction", StatusToString(v))
    case ClirTo(v) => ("CallingLineRestriction", ClirStatusToString(v))
    case OverrideTo(v) => ("HideCallerId", HideCallerIdToString(v))
  }

  /** Whether the update's value differs from the cached field it writes. */
  predicate Differs(s: Settings, u: Update)
  {
    match u
    case ClipTo(v) => s.clip != v
    case ColpTo(v) => s.colp != v
    case ColrTo(v) => s.colr != v
    case ClirTo(v) => s.clir != v
    case OverrideTo(v) => s.clirSetting != v
  }

  /** The settings after a setter call: the field then holds the value, and the
      settings change exactly when it held another value. */
  function Apply(s: Settings, u: Update): (r: Settings)
    ensures !Differs(r, u)
    ensures r == s <==> !Differs(s, u)
  {
    if !Differs(s, u) then s
    else
      match u
      case ClipTo(v) => s.(clip := v)
      case ColpTo(v) => s.(colp := v)
      case ColrTo(v) => s.(colr := v)
      case ClirTo(v) => s.(clir := v)
      case OverrideTo(v) => s.(clirSetting := v)
  }

  /** The signals a setter call emits: one PropertyChanged exactly when the settings change. */
  function Signals(s: Settings, u: Update): (r: seq<Outgoing>)
    ensures r == [] <==> Apply(s, u) == s
    ensures r != [] ==> r == [PropertyChanged(Announced(u).0, Announced(u).1)]
  {
    if Differs(s, u) then
      DisplayedDeterminesSettings(Apply(s, u), s);
      [PropertyChanged(Announced(u).0, Announced(u).1)]
    else []
  }

  /** A property shows what a setter call on it announces exactly when that call
      would leave the settings alone. */
  lemma DisplayShowsUpdate(s: Settings, u: Update)
    ensures Displayed(s)[Slot(u)] == Announced(u) <==> !Differs(s, u)
  {
    match u
    case ClipTo(v) => DisplayInjective(s.clip, v, s.clir, s.clir, s.clirSetting, s.clirSetting);
    case ColpTo(v) => DisplayInjective(s.colp, v, s.clir, s.clir, s.clirSetting, s.clirSetting);
    case ColrTo(v) => DisplayInjective(s.colr, v, s.clir, s.clir, s.clirSetting, s.clirSetting);
    case ClirTo(v) => DisplayInjective(s.clip, s.clip, s.clir, v, s.clirSetting, s.clirSetting);
    case OverrideTo(v) => DisplayInjective(s.clip, s.clip, s.clir, s.clir, s.clirSetting, v);
  }

  /** Equal displays mean equal settings: no information is lost in the strings. */
  lemma DisplayedDeterminesSettings(a: Settings, b: Settings)
    ensures Displayed(a) == Displayed(b) ==> a == b
  {
    if Displayed(a) == Displayed(b) {
      assert Displayed(a)[0] == Displayed(b)[0];
      assert Displayed(a)[1] == Displayed(b)[1];
      assert Displayed(a)[2] == Displayed(b)[2];
      assert Displayed(a)[3] == Displayed(b)[3];
      assert Displayed(a)[4] == Displayed(b)[4];
      DisplayInjective(a.clip, b.clip, a.clir, b.clir, a.clirSetting, b.clirSetting);
      DisplayInjective(a.colp, b.colp, a.clir, b.clir, a.clirSetting, b.clirSetting);
      DisplayInjective(a.colr, b.colr, a.clir, b.clir, a.clirSetting, b.clirSetting);
    }
  }

  /** A setter call changes exactly its property: the named property shows the new
      value and every other property shows what it showed before. */
  lemma ApplyChangesOneProperty(s: Settings, u: Update)
    ensures Displayed(Apply(s, u))[Slot(u)] == Announced(u)
    ensures forall i :: 0 <= i < 5 && i != Slot(u) ==> Displayed(Apply(s, u))[i] == Displayed(s)[i]
  {
  }

  /** Reasserting a value is a no-op: the second identical call changes nothing and emits nothing. */
  lemma ReassertIsSilent(s: Settings, u: Update)
    ensures Apply(Apply(s, u), u) == Apply(s, u)
    ensures Signals(Apply(s, u), u) == []
  {
  }

  /** A setter call that emits a signal emits the value the properties would now show. */
  lemma SignalAgreesWithDisplay(s: Settings, u: Update)
    ensures Signals(s, u) != [] ==>
              Signals(s, u)[0] == PropertyChanged(Displayed(Apply(s, u))[Slot(u)].0,
                                                  Displayed(Apply(s, u))[Slot(u)].1)
  {
  }
}
