/** Values shared by every part of the call-settings model.

    The status enumerations come from driver headers that are not part of this
    model; the constructors below are listed in the order of their numeric
    values (status 2 is "unknown" for the provisioning statuses, and the CLIR
    override options are DEFAULT = 0, INVOCATION = 1, SUPPRESSION = 2). */
module Types {

  datatype Option<T> = None | Some(value: T)

  /** CLIP, COLP and COLR provisioning status as reported by the driver. */
  datatype ProvisionStatus = NotProvisioned | Provisioned | StatusUnknown

  /** CLIR network status: the five values the driver reports. */
  datatype ClirStatus =
    | ClirNotProvisioned
    | ClirPermanent
    | ClirUnknown
    | ClirTemporaryRestricted
    | ClirTemporaryAllowed

  /** The user's CLIR override (the HideCallerId property). */
  datatype ClirOption = OptionDefault | Invocation | Suppression

  /** Supplementary-service control types; Activation is the zero value. */
  datatype SsControlType = Activation | Deactivation | Query | Registration | Erasure

  /** Which single setting a supplementary-service query is about; ClipSetting is the zero value. */
  datatype SettingType = ClipSetting | ColpSetting | ColrSetting | ClirSetting

  /** The error replies the component sends. */
  datatype Error = Busy | Failed | InvalidFormat | InvalidArgs | NotImplemented

  /** The completion of one driver operation: an error, or success with its result. */
  datatype DriverResult<T> = DriverError | Done(value: T)

  /** What a successful CLIR query reports: the override and the network status. */
  datatype ClirAnswer = ClirAnswer(override: ClirOption, network: ClirStatus)

  /** Which optional operations the modem driver provides. */
  datatype DriverOps = DriverOps(
    clipQuery: bool,
    colpQuery: bool,
    colrQuery: bool,
    clirQuery: bool,
    clirSet: bool)

  /** The D-Bus message a reply answers, as an abstract handle. */
  type MsgId = nat

  /** The arguments of a D-Bus method call, as far as SetProperty inspects them. */
  datatype DBusArg = Str(s: string) | Variant(inner: DBusArg) | OtherArg

  /** A reply sent to a caller. */
  datatype Reply =
    | ErrorReply(error: Error)
    /** the GetProperties dictionary, as (property name, value string) pairs in order */
    | PropertiesReply(props: seq<(string, string)>)
    /** a supplementary-service query result: context, request type tag and value */
    | SsReply(context: string, tag: SsControlType, value: string)
    /** an empty method return */
    | EmptyReply

  /** What the component puts on the bus: a reply to a message, or a PropertyChanged signal. */
  datatype Outgoing =
    | Replied(to: MsgId, reply: Reply)
    | PropertyChanged(name: string, value: string)
}
