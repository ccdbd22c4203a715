/** The aggregate fetch behind GetProperties, as a step-indexed state machine on values.

    Step 0 queries COLR, step 1 COLP, step 2 CLIP and step 3 CLIR (network status and
    override together). A step whose driver operation is absent is skipped; an error
    on steps 0 to 2 leaves that field alone; the chain always ends with one properties
    reply. The class in module CallSettings runs these steps one driver completion at a
    time and is proved to reach the same state. */
module FetchChain {
  import opened Types
  import opened Store

  /** The last step: the combined CLIR query. */
  const ClirStep: nat := 3

  /** What the driver answers to each of the four queries, when it is asked. */
  datatype FetchAnswers = FetchAnswers(
    colr: DriverResult<ProvisionStatus>,
    colp: DriverResult<ProvisionStatus>,
    clip: DriverResult<ProvisionStatus>,
    clir: DriverResult<ClirAnswer>)

  /** The observable state of one modem: cached settings, the CACHED flag and what was sent. */
  datatype LineState = LineState(settings: Settings, cached: bool, out: seq<Outgoing>)

  /** Whether the driver provides the query of step k. */
  predicate PresentAt(ops: DriverOps, k: nat)
  {
    if k == 0 then ops.colrQuery
    else if k == 1 then ops.colpQuery
    else if k == 2 then ops.clipQuery
    else k == ClirStep && ops.clirQuery
  }

  /** The first step from k on whose query is present; 4 when there is none. */
  function NextPresent(ops: DriverOps, k: nat): (j: nat)
    requires k <= 4
    ensures k <= j <= 4
    ensures j < 4 ==> PresentAt(ops, j)
    ensures forall i :: k <= i < j ==> !PresentAt(ops, i)
    decreases 4 - k
  {
    if k == 4 then 4
    else if PresentAt(ops, k) then k
    else NextPresent(ops, k + 1)
  }

  /** The setter a status step calls with a successful answer. */
  function StatusUpdate(k: nat, v: ProvisionStatus): Update
    requires k < ClirStep
  {
    if k == 0 then ColrTo(v) else if k == 1 then ColpTo(v) else ClipTo(v)
  }

  /** The driver's answer for status step k. */
  function StatusAnswer(ans: FetchAnswers, k: nat): DriverResult<ProvisionStatus>
    requires k < ClirStep
  {
    if k == 0 then ans.colr else if k == 1 then ans.colp else ans.clip
  }

  /** A setter call on the line state: the field is written and its signal, if any, sent. */
  function Assign(st: LineState, u: Update): LineState
  {
    LineState(Apply(st.settings, u), st.cached, st.out + Signals(st.settings, u))
  }

  /** The properties reply built from the current settings. */
  function PropertiesOf(st: LineState): Reply
  {
    PropertiesReply(Displayed(st.settings))
  }

  /** The reply that ends the fetch, sent to the pending message. */
  function Finish(st: LineState, msg: MsgId): LineState
  {
    st.(out := st.out + [Replied(msg, PropertiesOf(st))])
  }

  /** The completion of status step k: a success writes the field, an error is absorbed. */
  function StatusStepDone(st: LineState, k: nat, res: DriverResult<ProvisionStatus>): LineState
    requires k < ClirStep
  {
    match res
    case DriverError => st
    case Done(v) => Assign(st, StatusUpdate(k, v))
  }

  /** Status step k of the fetch: its completion when the query is present, nothing otherwise. */
  function StepEffect(ops: DriverOps, ans: FetchAnswers, k: nat, st: LineState): LineState
    requires k < ClirStep
  {
    if PresentAt(ops, k) then StatusStepDone(st, k, StatusAnswer(ans, k)) else st
  }

  /** The completion of the CLIR step: a success writes network status and override and
      sets CACHED; either way the properties reply is sent. */
  function ClirStepDone(st: LineState, res: DriverResult<ClirAnswer>, msg: MsgId): LineState
  {
    match res
    case DriverError => Finish(st, msg)
    case Done(a) => Finish(Assign(Assign(st, ClirTo(a.network)), OverrideTo(a.override)).(cached := true), msg)
  }

  /** The fetch from step k on. */
  function FetchFrom(ops: DriverOps, ans: FetchAnswers, msg: MsgId, k: nat, st: LineState): LineState
    requires k <= 4
    decreases 4 - k
  {
    if k == 4 then Finish(st, msg)
    else if k == ClirStep then
      if ops.clirQuery then ClirStepDone(st, ans.clir, msg) else Finish(st, msg)
    else
      var st' := StepEffect(ops, ans, k, st);
      FetchFrom(ops, ans, msg, k + 1, st')
  }

  /** The whole fetch started by GetProperties. It keeps what was sent before, sends only
      signals and then one properties reply to the pending message showing the final
      settings. Each status field takes its query's answer when that query is present and
      succeeds and keeps its value otherwise; network status and override likewise take
      the CLIR answer; CACHED becomes set exactly by a successful CLIR query. */
  function Fetch(ops: DriverOps, ans: FetchAnswers, msg: MsgId, st: LineState): (r: LineState)
    ensures SignalsThen(st.out, r.out, Replied(msg, PropertiesOf(r)))
    ensures var clirOk := ops.clirQuery && ans.clir.Done?;
      && r.settings.colr == (if ops.colrQuery && ans.colr.Done? then ans.colr.value else st.settings.colr)
      && r.settings.colp == (if ops.colpQuery && ans.colp.Done? then ans.colp.value else st.settings.colp)
      && r.settings.clip == (if ops.clipQuery && ans.clip.Done? then ans.clip.value else st.settings.clip)
      && r.settings.clir == (if clirOk then ans.clir.value.network else st.settings.clir)
      && r.settings.clirSetting == (if clirOk then ans.clir.value.override else st.settings.clirSetting)
      && r.cached == (st.cached || clirOk)
  {
    FetchRepliesOnce(ops, ans, msg, 0, st);
    FetchFromFields(ops, ans, msg, 0, st);
    FetchFrom(ops, ans, msg, 0, st)
  }

  /** Absent steps are skipped: the fetch from k is the fetch from the next present step. */
  lemma {:induction false} SkipAbsent(ops: DriverOps, ans: FetchAnswers, msg: MsgId, k: nat, st: LineState)
    requires k <= 4
    ensures FetchFrom(ops, ans, msg, k, st) == FetchFrom(ops, ans, msg, NextPresent(ops, k), st)
    decreases 4 - k
  {
    if k < 4 && !PresentAt(ops, k) {
      SkipAbsent(ops, ans, msg, k + 1, st);
    }
  }

  /** With no query present from k on, the fetch replies at once with the cached values. */
  lemma NothingPresentReplies(ops: DriverOps, ans: FetchAnswers, msg: MsgId, k: nat, st: LineState)
    requires k <= 4 && NextPresent(ops, k) == 4
    ensures FetchFrom(ops, ans, msg, k, st) == Finish(st, msg)
  {
    SkipAbsent(ops, ans, msg, k, st);
  }

  /** Only PropertyChanged signals, no reply. */
  predicate AllSignals(s: seq<Outgoing>)
  {
    forall i :: 0 <= i < |s| ==> s[i].PropertyChanged?
  }

  /** What a setter call does to each field and to the log. */
  lemma AssignEffect(st: LineState, u: Update)
    ensures var r := Assign(st, u);
      && r.cached == st.cached
      && r.settings.colr == (if u.ColrTo? then u.status else st.settings.colr)
      && r.settings.colp == (if u.ColpTo? then u.status else st.settings.colp)
      && r.settings.clip == (if u.ClipTo? then u.status else st.settings.clip)
      && r.settings.clir == (if u.ClirTo? then u.network else st.settings.clir)
      && r.settings.clirSetting == (if u.OverrideTo? then u.option else st.settings.clirSetting)
      && r.out[..|st.out|] == st.out && AllSignals(r.out[|st.out|..])
  {
    var r := Assign(st, u);
    assert r.out[|st.out|..] == Signals(st.settings, u);
  }

  /** One status step sends only signals and keeps the earlier log. */
  lemma StatusStepSignals(st: LineState, k: nat, res: DriverResult<ProvisionStatus>)
    requires k < ClirStep
    ensures var r := StatusStepDone(st, k, res);
      |r.out| >= |st.out| && r.out[..|st.out|] == st.out && AllSignals(r.out[|st.out|..])
      && r.cached == st.cached
  {
    match res
    case DriverError =>
      assert StatusStepDone(st, k, res).out[|st.out|..] == [];
    case Done(v) =>
      AssignEffect(st, StatusUpdate(k, v));
  }

  /** The log `after` extends `before` by signals only, then by the one message `last`. */
  predicate SignalsThen(before: seq<Outgoing>, after: seq<Outgoing>, last: Outgoing)
  {
    |after| > |before| && after[..|before|] == before
    && after[|after| - 1] == last && AllSignals(after[|before|..|after| - 1])
  }

  /** The reply that ends the fetch adds nothing but itself. */
  lemma FinishReplies(st: LineState, msg: MsgId)
    ensures SignalsThen(st.out, Finish(st, msg).out, Replied(msg, PropertiesOf(st)))
  {
    var r := Finish(st, msg);
    assert r.out[|st.out|..|r.out| - 1] == [];
  }

  /** The CLIR step sends only signals and then the one properties reply. */
  lemma ClirStepReplies(st: LineState, res: DriverResult<ClirAnswer>, msg: MsgId)
    ensures var r := ClirStepDone(st, res, msg);
      SignalsThen(st.out, r.out, Replied(msg, PropertiesOf(r)))
  {
    match res
    case DriverError =>
      FinishReplies(st, msg);
    case Done(a) =>
      var s1 := Assign(st, ClirTo(a.network));
      var s2 := Assign(s1, OverrideTo(a.override)).(cached := true);
      AssignEffect(st, ClirTo(a.network));
      AssignEffect(s1, OverrideTo(a.override));
      FinishReplies(s2, msg);
      var r := Finish(s2, msg);
      assert s2.out[|st.out|..] == s1.out[|st.out|..] + s2.out[|s1.out|..];
      SignalsConcat(st.out, s2.out, r.out);
  }

  /** Logs that grow by signals, then by signals and one final message, grew by signals and that message. */
  lemma SignalsConcat(a: seq<Outgoing>, b: seq<Outgoing>, c: seq<Outgoing>)
    requires |a| <= |b| && b[..|a|] == a && AllSignals(b[|a|..])
    requires |b| < |c| && c[..|b|] == b && AllSignals(c[|b|..|c| - 1])
    ensures c[..|a|] == a && AllSignals(c[|a|..|c| - 1])
  {
    assert c[|a|..|c| - 1] == b[|a|..] + c[|b|..|c| - 1];
  }

  /** Exactly one reply: the fetch keeps what was sent before, sends only signals, and ends
      with one properties reply to the pending message that shows the final settings. */
  lemma {:induction false} FetchRepliesOnce(ops: DriverOps, ans: FetchAnswers, msg: MsgId, k: nat, st: LineState)
    requires k <= 4
    ensures var r := FetchFrom(ops, ans, msg, k, st);
      SignalsThen(st.out, r.out, Replied(msg, PropertiesOf(r)))
    decreases 4 - k
  {
    if k == 4 || (k == ClirStep && !ops.clirQuery) {
      FinishReplies(st, msg);
    } else if k == ClirStep {
      ClirStepReplies(st, ans.clir, msg);
    } else {
      StepReplies(ops, ans, msg, k, st);
    }
  }

  /** The inductive step of FetchRepliesOnce, for a status step. */
  lemma {:induction false} StepReplies(ops: DriverOps, ans: FetchAnswers, msg: MsgId, k: nat, st: LineState)
    requires k < ClirStep
    ensures var r := FetchFrom(ops, ans, msg, k, st);
      SignalsThen(st.out, r.out, Replied(msg, PropertiesOf(r)))
    decreases 4 - k, 0
  {
    var st' := StepEffect(ops, ans, k, st);
    StepEffectSignals(ops, ans, k, st);
    FetchRepliesOnce(ops, ans, msg, k + 1, st');
    var r := FetchFrom(ops, ans, msg, k + 1, st');
    SignalsThenExtend(st.out, st'.out, r.out, Replied(msg, PropertiesOf(r)));
    FetchStep(ops, ans, msg, k, st);
  }

  /** Signals sent before a log that grows by signals and one final message extend it
      the same way. */
  lemma SignalsThenExtend(a: seq<Outgoing>, b: seq<Outgoing>, c: seq<Outgoing>, last: Outgoing)
    requires |a| <= |b| && b[..|a|] == a && AllSignals(b[|a|..])
    requires SignalsThen(b, c, last)
    ensures SignalsThen(a, c, last)
  {
    SignalsConcat(a, b, c);
  }

  /** A status step unfolds into its effect followed by the fetch from the next step. */
  lemma FetchStep(ops: DriverOps, ans: FetchAnswers, msg: MsgId, k: nat, st: LineState)
    requires k < ClirStep
    ensures FetchFrom(ops, ans, msg, k, st) == FetchFrom(ops, ans, msg, k + 1, StepEffect(ops, ans, k, st))
  {
  }

  /** A status step, present or not, sends only signals and keeps the earlier log. */
  lemma StepEffectSignals(ops: DriverOps, ans: FetchAnswers, k: nat, st: LineState)
    requires k < ClirStep
    ensures var st' := StepEffect(ops, ans, k, st);
      |st'.out| >= |st.out| && st'.out[..|st.out|] == st.out && AllSignals(st'.out[|st.out|..])
  {
    if PresentAt(ops, k) {
      StatusStepSignals(st, k, StatusAnswer(ans, k));
    } else {
      assert StepEffect(ops, ans, k, st).out[|st.out|..] == [];
    }
  }

  /** A status step's field after the fetch from k: its answer when the step is still
      ahead, present and successful; the field as it was otherwise. */
  function StatusAfter(ops: DriverOps, ans: FetchAnswers, k: nat, j: nat, prev: ProvisionStatus): ProvisionStatus
    requires j < ClirStep
  {
    if k <= j && PresentAt(ops, j) && StatusAnswer(ans, j).Done? then StatusAnswer(ans, j).value else prev
  }

  /** The settings and the CACHED flag after the fetch from step k: each field takes its
      query's answer when that query is present and succeeds, and keeps its value otherwise;
      CACHED becomes set exactly when the CLIR query is present and succeeds. */
  lemma {:induction false} FetchFromFields(ops: DriverOps, ans: FetchAnswers, msg: MsgId, k: nat, st: LineState)
    requires k <= 4
    ensures var r := FetchFrom(ops, ans, msg, k, st);
      var clirOk := k <= ClirStep && ops.clirQuery && ans.clir.Done?;
      && r.settings.colr == StatusAfter(ops, ans, k, 0, st.settings.colr)
      && r.settings.colp == StatusAfter(ops, ans, k, 1, st.settings.colp)
      && r.settings.clip == StatusAfter(ops, ans, k, 2, st.settings.clip)
      && r.settings.clir == (if clirOk then ans.clir.value.network else st.settings.clir)
      && r.settings.clirSetting == (if clirOk then ans.clir.value.override else st.settings.clirSetting)
      && r.cached == (st.cached || clirOk)
    decreases 4 - k
  {
    if k < ClirStep {
      var st' := StepEffect(ops, ans, k, st);
      if PresentAt(ops, k) && StatusAnswer(ans, k).Done? {
        AssignEffect(st, StatusUpdate(k, StatusAnswer(ans, k).value));
      }
      FetchFromFields(ops, ans, msg, k + 1, st');
    } else if k == ClirStep && ops.clirQuery && ans.clir.Done? {
      var a := ans.clir.value;
      AssignEffect(st, ClirTo(a.network));
      AssignEffect(Assign(st, ClirTo(a.network)), OverrideTo(a.override));
    }
  }

  /** The signals are sent in step order: those of each step come before those of the next. */
  lemma {:induction false} StepOrder(ops: DriverOps, ans: FetchAnswers, msg: MsgId, k: nat, st: LineState)
    requires k < ClirStep
    ensures var st' := StepEffect(ops, ans, k, st);
      var r := FetchFrom(ops, ans, msg, k, st);
      && r == FetchFrom(ops, ans, msg, k + 1, st')
      && st'.out == st.out + (if PresentAt(ops, k) && StatusAnswer(ans, k).Done?
                              then Signals(st.settings, StatusUpdate(k, StatusAnswer(ans, k).value)) else [])
      && r.out[..|st'.out|] == st'.out
  {
    var st' := StepEffect(ops, ans, k, st);
    if PresentAt(ops, k) && StatusAnswer(ans, k).Done? {
      assert st' == Assign(st, StatusUpdate(k, StatusAnswer(ans, k).value));
    } else {
      assert st' == st;
    }
    FetchStep(ops, ans, msg, k, st);
    FetchRepliesOnce(ops, ans, msg, k + 1, st');
  }

  /** A driver without the COLP query: the fetch skips that step and leaves COLP as cached. */
  lemma MissingColpSkipped(ops: DriverOps, ans: FetchAnswers, msg: MsgId, st: LineState)
    requires !ops.colpQuery
    ensures Fetch(ops, ans, msg, st).settings.colp == st.settings.colp
    ensures Fetch(ops, ans, msg, st) == Fetch(ops, ans.(colp := DriverError), msg, st)
  {
  }

  /** The full-fetch example: called-line restriction disabled, called-line presentation
      enabled, calling-line presentation unknown, network temporarily restricted with
      suppression. The reply shows CallingLineRestriction through the network-status
      strings ("on") and HideCallerId "disabled". */
  lemma FetchExample(msg: MsgId)
    ensures var ops := DriverOps(true, true, true, true, true);
      var ans := FetchAnswers(Done(NotProvisioned), Done(Provisioned), Done(StatusUnknown),
                              Done(ClirAnswer(Suppression, ClirTemporaryRestricted)));
      var r := Fetch(ops, ans, msg, LineState(Initial, false, []));
      && r.cached
      && r.out[|r.out| - 1] == Replied(msg, PropertiesReply(
           [("CallingLinePresentation", "unknown"),
            ("CalledLinePresentation", "enabled"),
            ("CalledLineRestriction", "disabled"),
            ("CallingLineRestriction", "on"),
            ("HideCallerId", "disabled")]))
  {
  }
}
