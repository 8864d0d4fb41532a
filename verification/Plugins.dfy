/**
 A plugin's life as its thread runs one task after another: prepare, register,
 gather, and report going up or down, with out-of-band packets that are retried.
 */
module Plugins {
  import opened PacketTypes
  import opened PluginTexts
  import opened Decimal
  import opened Gatherers
  import opened Packets
  import opened Gathering

  datatype Task = Prep | Regr | GatherTask | AlertUp | AlertDown
  datatype Pending = Nothing | Registration | Alarm(notice: Notice)

  const ETARGETREG := 302

  /** What the environment answers during one run of the task; the two tids are the clock readings of
      plugin.c:75 and plugin.c:99. */
  datatype Input = Input(prepared: bool, firstTid: nat, retryTid: nat, posted: bool, response: int, code: Code)

  /** `reported` are the EPLUGUP and EPLUGDOWN results so far, `accepted` the alerts whose post returned
      0, `sent` the payload of every post. */
  datatype Model = Model(task: Task, tid: nat, pending: Pending,
                         reported: seq<Notice>, accepted: seq<Notice>, sent: seq<string>)

  // --------------------------------------------------------- the machine

  function RegrRun(forms: Forms, m: Model, i: Input): Model {
    var tid := if m.pending.Nothing? && m.tid == 0 then i.firstTid else m.tid;
    var m' := m.(tid := tid, sent := m.sent + [RegisterText(forms, tid)]);
    if i.posted then m'.(pending := Nothing, task := GatherTask)
    else m'.(pending := Registration, tid := if i.response == ETARGETREG then i.retryTid else tid)
  }

  function AlertRun(forms: Forms, m: Model, status: Status, i: Input): Model {
    var notice := if m.pending.Alarm? then m.pending.notice else Notice(status, m.tid);
    var m' := m.(sent := m.sent + [AlertText(forms, notice)]);
    if i.posted then m'.(pending := Nothing, task := GatherTask, accepted := m.accepted + [notice])
    else m'.(pending := Alarm(notice))
  }

  function GatherRun(m: Model, code: Code): Model {
    if code == EPLUGUP then m.(task := AlertUp, reported := m.reported + [Notice(Up, m.tid)])
    else if code == EPLUGDOWN then m.(task := AlertDown, reported := m.reported + [Notice(Down, m.tid)])
    else m
  }

  function TaskRun(forms: Forms, m: Model, i: Input): Model {
    match m.task
    case Prep => if i.prepared then RegrRun(forms, m.(task := Regr), i) else m
    case Regr => RegrRun(forms, m, i)
    case GatherTask => GatherRun(m, i.code)
    case AlertUp => AlertRun(forms, m, Up, i)
    case AlertDown => AlertRun(forms, m, Down, i)
  }

  function Start(tid: nat): Model { Model(Prep, tid, Nothing, [], [], []) }

  function Run(forms: Forms, tid: nat, inputs: seq<Input>): Model {
    if inputs == [] then Start(tid)
    else TaskRun(forms, Run(forms, tid, inputs[..|inputs| - 1]), inputs[|inputs| - 1])
  }

  // The alert the current task is about, if any.
  function Due(m: Model): seq<Notice> {
    match m.task
    case AlertUp => [Notice(Up, m.tid)]
    case AlertDown => [Notice(Down, m.tid)]
    case _ => []
  }

  // Alerts are exact and the pending packet fits the task.
  predicate Exact(m: Model) {
    && m.reported == m.accepted + Due(m)
    && (match m.pending
        case Nothing => true
        case Registration => m.task.Regr?
        case Alarm(notice) => Due(m) == [notice])
  }

  lemma StepExact(forms: Forms, m: Model, i: Input)
    requires Exact(m)
    ensures Exact(TaskRun(forms, m, i))
  {
  }

  function Statuses(notices: seq<Notice>): seq<Status> {
    if notices == [] then [] else Statuses(notices[..|notices| - 1]) + [notices[|notices| - 1].status]
  }

  // What the gathers of a run found, by their codes.
  function Results(forms: Forms, tid: nat, inputs: seq<Input>): seq<Status> {
    if inputs == [] then []
    else
      var before, code := inputs[..|inputs| - 1], inputs[|inputs| - 1].code;
      Results(forms, tid, before) +
      (if Run(forms, tid, before).task != GatherTask then []
       else if code == EPLUGUP then [Up] else if code == EPLUGDOWN then [Down] else [])
  }

  /** In every run the accepted alerts are the EPLUGUP/EPLUGDOWN results so far, in order, once each,
      except the last one while its alert is pending; a pending packet matches the current task and tid. */
  lemma {:induction false} AlertsExact(forms: Forms, tid: nat, inputs: seq<Input>)
    ensures var m := Run(forms, tid, inputs); Exact(m) && Statuses(m.reported) == Results(forms, tid, inputs)
  {
    if inputs != [] {
      var before, i := inputs[..|inputs| - 1], inputs[|inputs| - 1];
      AlertsExact(forms, tid, before);
      var m := Run(forms, tid, before);
      StepExact(forms, m, i);
      StepReports(forms, m, i);
    }
  }

  lemma StepReports(forms: Forms, m: Model, i: Input)
    ensures Statuses(TaskRun(forms, m, i).reported) == Statuses(m.reported) +
              (if m.task != GatherTask then []
               else if i.code == EPLUGUP then [Up] else if i.code == EPLUGDOWN then [Down] else [])
  {
    var m' := TaskRun(forms, m, i);
    if m'.reported != m.reported {
      assert m'.reported[..|m'.reported| - 1] == m.reported;
    }
  }

  predicate Registered(m: Model) { m.task.GatherTask? || m.task.AlertUp? || m.task.AlertDown? }

  /** Once registered a plugin stays registered under the same tid, whatever follows. */
  lemma {:induction false} TidIsFixed(forms: Forms, tid: nat, inputs: seq<Input>, more: seq<Input>)
    requires Registered(Run(forms, tid, inputs))
    ensures var m, m' := Run(forms, tid, inputs), Run(forms, tid, inputs + more); Registered(m') && m'.tid == m.tid
  {
    if more == [] {
      assert inputs + more == inputs;
    } else {
      var before := more[..|more| - 1];
      assert (inputs + more)[..|inputs + more| - 1] == inputs + before;
      TidIsFixed(forms, tid, inputs, before);
    }
  }

  // Whatever the server accepted was sent, and the tid it accepted is the one in use.
  predicate SentBefore(forms: Forms, m: Model) {
    && (Registered(m) ==> RegisterText(forms, m.tid) in m.sent)
    && (forall i :: 0 <= i < |m.accepted| ==> m.accepted[i].tid == m.tid && AlertText(forms, m.accepted[i]) in m.sent)
    && (!Registered(m) ==> m.accepted == [])
  }

  lemma StepSent(forms: Forms, m: Model, i: Input)
    requires Exact(m) && SentBefore(forms, m)
    ensures SentBefore(forms, TaskRun(forms, m, i))
  {
    var m' := TaskRun(forms, m, i);
    assert m.sent <= m'.sent;
  }

  /** In every run, a registered plugin's tid is one that a REGISTER packet showed to the server, and every
      accepted alert was sent under that tid. */
  lemma {:induction false} AcceptedWasSent(forms: Forms, tid: nat, inputs: seq<Input>)
    ensures SentBefore(forms, Run(forms, tid, inputs))
  {
    if inputs != [] {
      var before := inputs[..|inputs| - 1];
      AlertsExact(forms, tid, before);
      AcceptedWasSent(forms, tid, before);
      StepSent(forms, Run(forms, tid, before), inputs[|inputs| - 1]);
    }
  }

  // --------------------------------------------- retrying until accepted

  // No post is accepted, except perhaps the last.
  predicate RefusedBefore(more: seq<Input>) { forall k :: 0 <= k < |more| - 1 ==> !more[k].posted }

  lemma RunLast(forms: Forms, tid: nat, inputs: seq<Input>, more: seq<Input>)
    requires more != []
    ensures Run(forms, tid, inputs + more) == TaskRun(forms, Run(forms, tid, inputs + more[..|more| - 1]), more[|more| - 1])
  {
    assert (inputs + more)[..|inputs + more| - 1] == inputs + more[..|more| - 1];
  }

  /** Until the plugin is prepared nothing happens and nothing is sent; then it registers, under the tid it was
      started with or, if it had none, a new one. */
  lemma {:induction false} FirstRegistration(forms: Forms, tid: nat, inputs: seq<Input>, i: Input)
    requires forall k :: 0 <= k < |inputs| ==> !inputs[k].prepared
    ensures Run(forms, tid, inputs) == Start(tid)
    ensures var shown := if tid == 0 then i.firstTid else tid; var m := Run(forms, tid, inputs + [i]);
            if i.prepared then m.sent == [RegisterText(forms, shown)] && (m.task == if i.posted then GatherTask else Regr)
            else m == Start(tid)
  {
    if inputs != [] { FirstRegistration(forms, tid, inputs[..|inputs| - 1], i); }
    assert (inputs + [i])[..|inputs|] == inputs;
  }

  // While it is registering the plugin has a REGISTER packet pending.
  lemma {:induction false} RegistrationPends(forms: Forms, tid: nat, inputs: seq<Input>)
    ensures var m := Run(forms, tid, inputs); (m.task.Prep? ==> m == Start(tid)) && (m.task.Regr? ==> m.pending.Registration?)
  {
    if inputs != [] { RegistrationPends(forms, tid, inputs[..|inputs| - 1]); }
  }

  // The tid after k refusals: the server's last complaint that it is taken, code 302, brought a new one.
  function TidAfter(tid: nat, more: seq<Input>, k: nat): nat
    requires k <= |more|
  {
    if k == 0 then tid
    else if more[k - 1].response == 302 then more[k - 1].retryTid
    else TidAfter(tid, more, k - 1)
  }

  function Registrations(forms: Forms, tid: nat, more: seq<Input>, k: nat): seq<string>
    requires k <= |more|
  {
    if k == 0 then [] else Registrations(forms, tid, more, k - 1) + [RegisterText(forms, TidAfter(tid, more, k - 1))]
  }

  lemma {:induction false} TidAfterFront(forms: Forms, tid: nat, more: seq<Input>, k: nat)
    requires k < |more|
    ensures TidAfter(tid, more[..|more| - 1], k) == TidAfter(tid, more, k)
    ensures Registrations(forms, tid, more[..|more| - 1], k) == Registrations(forms, tid, more, k)
  {
    if k > 0 { TidAfterFront(forms, tid, more, k - 1); }
  }

  // m', after m and `more` runs of plugin_regr.
  predicate Registering(forms: Forms, m: Model, more: seq<Input>, m': Model)
    requires more != []
  {
    var n := |more| - 1;
    && m'.sent == m.sent + Registrations(forms, m.tid, more, n + 1)
    && (if more[n].posted then m'.task == GatherTask && m'.tid == TidAfter(m.tid, more, n)
        else m'.task == Regr && m'.tid == TidAfter(m.tid, more, n + 1))
  }

  lemma RegistersAgain(forms: Forms, m: Model, more: seq<Input>, m': Model)
    requires m'.task.Regr? && m'.pending.Registration? && more != [] && RefusedBefore(more)
    requires if |more| == 1 then m' == m else Registering(forms, m, more[..|more| - 1], m')
    ensures Registering(forms, m, more, TaskRun(forms, m', more[|more| - 1]))
  {
    var n := |more| - 1;
    if n > 0 {
      TidAfterFront(forms, m.tid, more, n);
      assert !more[n - 1].posted;
      assert more[..n][n - 1] == more[n - 1];
    }
    assert m'.tid == TidAfter(m.tid, more, n);
    assert m'.sent == m.sent + Registrations(forms, m.tid, more, n);
  }

  /** Registration is retried until the server accepts it: every post shows the tid of the moment, which changes
      exactly when the server says that it is taken, and the one accepted is the plugin's from then on. */
  lemma {:induction false} RetriesRegistration(forms: Forms, tid: nat, inputs: seq<Input>, more: seq<Input>)
    requires Run(forms, tid, inputs).task == Regr && more != [] && RefusedBefore(more)
    ensures Registering(forms, Run(forms, tid, inputs), more, Run(forms, tid, inputs + more))
    decreases |more|
  {
    var before := more[..|more| - 1];
    RunLast(forms, tid, inputs, more);
    RegistrationPends(forms, tid, inputs + before);
    if |more| == 1 {
      assert inputs + before == inputs;
    } else {
      RetriesRegistration(forms, tid, inputs, before);
      assert !before[|before| - 1].posted;
    }
    RegistersAgain(forms, Run(forms, tid, inputs), more, Run(forms, tid, inputs + before));
  }

  function Copies(text: string, n: nat): seq<string> { if n == 0 then [] else Copies(text, n - 1) + [text] }

  // m', after m and `more` runs of plugin_alert.
  predicate Alerting(forms: Forms, m: Model, more: seq<Input>, m': Model)
    requires more != [] && Due(m) != []
  {
    var notice := Due(m)[0];
    && m'.sent == m.sent + Copies(AlertText(forms, notice), |more|) && m'.tid == m.tid && m'.reported == m.reported
    && (if more[|more| - 1].posted then m'.task == GatherTask && m'.accepted == m.accepted + [notice]
        else m'.task == m.task && m'.accepted == m.accepted)
  }

  lemma AlertsAgain(forms: Forms, m: Model, more: seq<Input>, m': Model)
    requires Due(m) != [] && Exact(m) && Exact(m') && more != [] && RefusedBefore(more)
    requires if |more| == 1 then m' == m else Alerting(forms, m, more[..|more| - 1], m')
    ensures var next := TaskRun(forms, m', more[|more| - 1]);
            Alerting(forms, m, more, next) && (more[|more| - 1].posted ==> next.accepted == next.reported)
  {
    var notice, n := Due(m)[0], |more| - 1;
    var text, i := AlertText(forms, notice), more[n];
    if n > 0 { assert !more[n - 1].posted && more[..n][n - 1] == more[n - 1]; }
    assert m'.task == m.task && m'.tid == m.tid && m'.sent == m.sent + Copies(text, n);
    assert Due(m') == [notice] && notice.tid == m.tid;
    assert TaskRun(forms, m', i) == AlertRun(forms, m', notice.status, i);
    assert AlertRun(forms, m', notice.status, i).sent == m'.sent + [text];
    Longer(m.sent, Copies(text, n), text);
  }

  lemma Longer(a: seq<string>, b: seq<string>, text: string)
    ensures a + b + [text] == a + (b + [text])
  {
  }

  /** An alert is retried, the same text each time, until the server accepts it; then it is among the accepted ones,
      which are all that was reported, and the plugin gathers again. */
  lemma {:induction false} RetriesAlert(forms: Forms, tid: nat, inputs: seq<Input>, more: seq<Input>)
    requires Due(Run(forms, tid, inputs)) != [] && more != [] && RefusedBefore(more)
    ensures var m, m' := Run(forms, tid, inputs), Run(forms, tid, inputs + more);
            Alerting(forms, m, more, m') && (more[|more| - 1].posted ==> m'.accepted == m'.reported)
    decreases |more|
  {
    var before := more[..|more| - 1];
    RunLast(forms, tid, inputs, more);
    AlertsExact(forms, tid, inputs);
    AlertsExact(forms, tid, inputs + before);
    if |more| == 1 {
      assert inputs + before == inputs;
    } else {
      RetriesAlert(forms, tid, inputs, before);
    }
    AlertsAgain(forms, Run(forms, tid, inputs), more, Run(forms, tid, inputs + before));
  }

  // ------------------------------------------------- mysql's gatherer

  // mysql_gather up to its sub-gatherers: the connection state and what the ping reveals.
  datatype Connection = Connection(on: bool, thread: nat)

  function MysqlGather(c: Connection, pingFails: bool, thread: nat, sections: Code): (Connection, Code) {
    if pingFails then
      if c.on then (c.(on := false), EPLUGDOWN) else (c, ENODATA)
    else if c.thread != thread then (Connection(true, thread), EPLUGUP)
    else (c, sections)
  }

  datatype MysqlInput = MysqlInput(base: Input, pingFails: bool, thread: nat)

  // One task of a plugin whose gatherer is mysql_gather; mysql_prep connects.
  function MysqlStep(forms: Forms, m: Model, c: Connection, i: MysqlInput): (Model, Connection) {
    match m.task
    case GatherTask =>
      // the sub-gatherers combine ENONE and ENODATA only
      var (c', code) := MysqlGather(c, i.pingFails, i.thread, if i.base.code == ENONE then ENONE else ENODATA);
      (TaskRun(forms, m, i.base.(code := code)), c')
    case Prep => (TaskRun(forms, m, i.base), if i.base.prepared then Connection(true, i.thread) else c)
    case _ => (TaskRun(forms, m, i.base), c)
  }

  function MysqlRun(forms: Forms, tid: nat, inputs: seq<MysqlInput>): (Model, Connection) {
    if inputs == [] then (Start(tid), Connection(true, 0))
    else
      var (m, c) := MysqlRun(forms, tid, inputs[..|inputs| - 1]);
      MysqlStep(forms, m, c, inputs[|inputs| - 1])
  }

  predicate NoDownDown(notices: seq<Notice>) {
    forall i :: 0 <= i < |notices| - 1 && notices[i].status == Down ==> notices[i + 1].status == Up
  }

  predicate LastIsDown(notices: seq<Notice>) { notices != [] && notices[|notices| - 1].status == Down }

  // The connection is off exactly after a report that it went down.
  predicate Alternates(m: Model, c: Connection) {
    && NoDownDown(m.reported) && (LastIsDown(m.reported) <==> !c.on) && Exact(m)
    && (m.task.Prep? || m.task.Regr? ==> m.reported == [])
  }

  lemma MysqlStepAlternates(forms: Forms, m: Model, c: Connection, i: MysqlInput)
    requires Alternates(m, c)
    ensures var (m', c') := MysqlStep(forms, m, c, i); Alternates(m', c')
  {
    var (m', c') := MysqlStep(forms, m, c, i);
    StepExact(forms, m, if m.task.GatherTask? then
      i.base.(code := MysqlGather(c, i.pingFails, i.thread, if i.base.code == ENONE then ENONE else ENODATA).1) else i.base);
    if m.task.GatherTask? && |m'.reported| > |m.reported| {
      assert m'.reported[..|m.reported|] == m.reported;
    } else {
      assert m'.reported == m.reported;
    }
  }

  lemma {:induction false} MysqlReports(forms: Forms, tid: nat, inputs: seq<MysqlInput>)
    ensures var (m, c) := MysqlRun(forms, tid, inputs); Alternates(m, c)
  {
    if inputs != [] {
      var before := inputs[..|inputs| - 1];
      MysqlReports(forms, tid, before);
      var (m, c) := MysqlRun(forms, tid, before);
      MysqlStepAlternates(forms, m, c, inputs[|inputs| - 1]);
    }
  }

  // The thread id last seen on a live connection, by a preparation or by a ping that succeeded.
  function SeenThread(forms: Forms, tid: nat, inputs: seq<MysqlInput>): nat {
    if inputs == [] then 0
    else
      var before, i := inputs[..|inputs| - 1], inputs[|inputs| - 1];
      var task := MysqlRun(forms, tid, before).0.task;
      if (task.Prep? && i.base.prepared) || (task.GatherTask? && !i.pingFails) then i.thread
      else SeenThread(forms, tid, before)
  }

  lemma {:induction false} ThreadIsSeen(forms: Forms, tid: nat, inputs: seq<MysqlInput>)
    ensures MysqlRun(forms, tid, inputs).1.thread == SeenThread(forms, tid, inputs)
  {
    if inputs != [] { ThreadIsSeen(forms, tid, inputs[..|inputs| - 1]); }
  }

  /** Every outage and every recovery is reported, and nothing else: a gather whose ping fails reports "down"
      unless "down" was the last report; one whose ping succeeds on another connection than the last live one
      reports "up"; every other task leaves the reports alone. */
  lemma MysqlReportsExactly(forms: Forms, tid: nat, inputs: seq<MysqlInput>, i: MysqlInput)
    ensures var (m, _) := MysqlRun(forms, tid, inputs); var (m', _) := MysqlRun(forms, tid, inputs + [i]);
            m'.reported == m.reported +
              (if m.task != GatherTask then []
               else if i.pingFails then if LastIsDown(m.reported) then [] else [Notice(Down, m.tid)]
               else if i.thread != SeenThread(forms, tid, inputs) then [Notice(Up, m.tid)]
               else [])
  {
    MysqlReports(forms, tid, inputs);
    ThreadIsSeen(forms, tid, inputs);
    assert (inputs + [i])[..|inputs|] == inputs;
  }

  /** Driven by mysql_gather, two accepted "down" alerts always have an "up" between them. */
  lemma DownsAreSeparated(forms: Forms, tid: nat, inputs: seq<MysqlInput>, i: nat, j: nat)
    requires var a := MysqlRun(forms, tid, inputs).0.accepted; i < j < |a| && a[i].status == Down && a[j].status == Down
    ensures var a := MysqlRun(forms, tid, inputs).0.accepted; exists k :: i < k < j && a[k].status == Up
  {
    MysqlReports(forms, tid, inputs);
    var m := MysqlRun(forms, tid, inputs).0;
    assert forall k :: 0 <= k < |m.accepted| ==> m.reported[k] == m.accepted[k];
    assert m.accepted[i + 1].status == Up;
  }

  // ------------------------------------------------------- the plugin

  // Texts that fit a packet; the tail goes on after the number with a comma.
  predicate Fitting(forms: Forms) {
    |forms.registerHead| + 20 + |forms.registerTail| < PKTSZ && |forms.alertHead| + 20 + 18 < PKTSZ
  }

  predicate Room(forms: Forms) {
    Fitting(forms) && forms.registerTail != [] && forms.registerTail[0] == ','
  }

  lemma TailComma(meta: Meta)
    ensures var tail := FormsOf(meta).registerTail; tail != [] && tail[0] == ','
  {
  }

  lemma AlertFits(forms: Forms, n: Notice)
    requires Room(forms) && n.tid < TWO64
    ensures |AlertText(forms, n)| < PKTSZ
  {
    Digits64(n.tid);
  }

  // Overprinting the twenty columns is the same as printing the whole packet again.
  lemma PatchedText(forms: Forms, shown: nat, tid: nat)
    requires Room(forms) && shown < TWO64 && tid < TWO64
    ensures var text, mark := RegisterText(forms, shown), |forms.registerHead|;
            && |Padded(tid)| == 20 && mark + 20 < |text|
            && text[..mark] + Padded(tid) + "," + text[mark + 21..] == RegisterText(forms, tid)
  {
    Width20(shown);
    Width20(tid);
    var text, mark, tail := RegisterText(forms, shown), |forms.registerHead|, forms.registerTail;
    assert text[..mark] == forms.registerHead;
    assert text[mark + 21..] == tail[1..];
    assert "," + tail[1..] == tail;
  }

  // The twenty columns behind the head of a REGISTER text show the number.
  lemma RegisterShows(forms: Forms, tid: nat)
    requires tid < TWO64
    ensures var text, mark := RegisterText(forms, tid), |forms.registerHead|;
            mark + 20 <= |text| && Shows(text[mark..mark + 20], tid)
  {
    Columns20(tid);
    var mark := |forms.registerHead|;
    assert RegisterText(forms, tid)[mark..mark + 20] == Padded(tid);
  }

  // plugin.c:77-81
  method NewRegistration(forms: Forms, tid: nat) returns (p: PacketBuffer)
    requires Room(forms) && tid < TWO64
    ensures fresh(p) && fresh(p.payload) && p.Valid() && p.kind == Register && p.state == Ready
    ensures p.Text() == RegisterText(forms, tid) && p.rollbackPoint == |forms.registerHead|
  {
    Width20(tid);
    p := new PacketBuffer(Register);
    p.state := Ready;
    p.Append(forms.registerHead);
    assert p.Text() == forms.registerHead;
    p.Transaction();
    var tail := Padded(tid) + forms.registerTail;
    p.Append(tail);
    assert forms.registerHead + tail == RegisterText(forms, tid);
  }

  // plugin.c:139-141
  method NewAlert(forms: Forms, n: Notice) returns (p: PacketBuffer)
    requires Room(forms) && n.tid < TWO64
    ensures fresh(p) && fresh(p.payload) && p.Valid() && p.kind == Alert && p.state == Ready && p.Text() == AlertText(forms, n)
  {
    AlertFits(forms, n);
    p := new PacketBuffer(Alert);
    p.state := Ready;
    p.Append(forms.alertHead + Digits(n.tid) + ",\"status\":\"" + (if n.status.Up? then "up" else "down") + "\"}");
  }

  class Plugin {
    const forms: Forms
    var task: Task
    var tid: nat
    var oob: PacketBuffer?
    ghost var model: Model
    ghost var shown: nat      // the tid in the REGISTER packet's text

    /** The fields refine the model, and the pending packet's buffer shows what the model says. */
    ghost predicate Valid()
      reads this, oob, if oob != null then {oob.payload} else {}
    {
      && Room(forms) && task == model.task && tid == model.tid < TWO64 && Exact(model)
      && (oob == null <==> model.pending.Nothing?)
      && (oob != null ==> PendingOk(oob))
    }

    ghost predicate PendingOk(p: PacketBuffer)
      reads this, p, p.payload
    {
      && p.Valid() && p.state == Ready
      && (model.pending.Registration? ==>
            && p.kind == Register && p.rollbackPoint == |forms.registerHead|
            && shown < TWO64 && p.Text() == RegisterText(forms, shown))
      && (model.pending.Alarm? ==> p.kind == Alert && p.Text() == AlertText(forms, model.pending.notice))
    }

    // plugin_init, with the tid found for the plugin under res/ or 0
    constructor (meta: Meta, tid: nat)
      requires Fitting(FormsOf(meta)) && tid < TWO64
      ensures Valid() && model == Start(tid) && forms == FormsOf(meta)
    {
      TailComma(meta);
      this.forms, task, this.tid, oob := FormsOf(meta), Prep, tid, null;
      model, shown := Start(tid), 0;
    }

    // plugin.c:73-85: the REGISTER packet shows the current tid, built or patched.
    method Present(newTid: nat)
      requires Valid() && task == Regr && newTid < TWO64
      modifies this`tid, this`oob, oob, if oob != null then {oob.payload} else {}
      ensures tid == (if old(oob) == null && old(tid) == 0 then newTid else old(tid)) < TWO64
      ensures oob != null && oob.Valid() && oob.state == Ready && oob.kind == Register
      ensures oob.rollbackPoint == |forms.registerHead| && oob.Text() == RegisterText(forms, tid)
      ensures oob == old(oob) || (fresh(oob) && fresh(oob.payload))
    {
      if oob == null {
        if tid == 0 { tid := newTid; }
        oob := NewRegistration(forms, tid);
      } else {
        PatchedText(forms, shown, tid);
        oob.PatchNumber(tid);
      }
    }

    /** plugin_regr: whatever tid changes registration retries brought, the payload posted is the
        packet rendered from scratch with the current tid, and that is the number its columns show. */
    method RegrTask(i: Input)
      requires Valid() && task == Regr && i.firstTid < TWO64 && i.retryTid < TWO64
      modifies this, oob, if oob != null then {oob.payload} else {}
      ensures Valid() && model == TaskRun(forms, old(model), i)
      ensures var current := if old(oob) == null && old(tid) == 0 then i.firstTid else old(tid);
              var mark := |forms.registerHead|;
              && |model.sent| == |old(model).sent| + 1 && mark + 20 <= |model.sent[|old(model).sent|]|
              && Shows(model.sent[|old(model).sent|][mark..mark + 20], current)
              && (tid == current || (!i.posted && i.response == ETARGETREG && tid == i.retryTid))
    {
      Present(i.firstTid);
      RegisterShows(forms, tid);
      shown := tid;
      model := model.(tid := tid, sent := model.sent + [oob.Text()]);
      var r := Post(oob, i.posted, i.response);
      if r < 0 {
        if oob.response == ETARGETREG { tid := i.retryTid; }
        model := model.(pending := Registration, tid := tid);
      } else {
        oob := null;
        task := GatherTask;
        model := model.(pending := Nothing, task := GatherTask);
      }
    }

    // plugin_prep
    method PrepTask(i: Input)
      requires Valid() && task == Prep && i.firstTid < TWO64 && i.retryTid < TWO64
      modifies this, oob, if oob != null then {oob.payload} else {}
      ensures Valid() && model == TaskRun(forms, old(model), i)
    {
      if i.prepared {
        task := Regr;
        model := model.(task := Regr);
        RegrTask(i);
      }
    }

    /** plugin_alert: the payload posted is the pending alert's, built once and retried until accepted. */
    method AlertTask(i: Input)
      requires Valid() && (task == AlertUp || task == AlertDown)
      modifies this, oob, if oob != null then {oob.payload} else {}
      ensures Valid() && model == TaskRun(forms, old(model), i)
    {
      var status := if task == AlertUp then Up else Down;
      var notice := Notice(status, tid);
      if oob == null { oob := NewAlert(forms, notice); }
      model := model.(sent := model.sent + [oob.Text()]);
      var r := Post(oob, i.posted, i.response);
      if r < 0 {
        model := model.(pending := Alarm(notice));
      } else {
        oob := null;
        task := GatherTask;
        model := model.(pending := Nothing, task := GatherTask, accepted := model.accepted + [notice]);
      }
    }

    // The phase part of plugin_gather, after its transaction reported `code`.
    method GatherTaskEnds(i: Input)
      requires Valid() && task == GatherTask
      modifies this
      ensures Valid() && model == TaskRun(forms, old(model), i) && oob == old(oob)
    {
      if i.code == EPLUGUP {
        task := AlertUp;
      } else if i.code == EPLUGDOWN {
        task := AlertDown;
      }
      model := GatherRun(model, i.code);
    }
  }

  // post: nothing is sent unless the packet is READY; the callback stores the server's code.
  method Post(p: PacketBuffer, posted: bool, response: int) returns (r: int)
    modifies p`attempt, p`response
    ensures r == (if p.state == Ready && posted then 0 else -1)
    ensures p.attempt == old(p.attempt) + 1
    ensures p.response == if p.state == Ready then response else old(p.response)
  {
    p.attempt := p.attempt + 1;
    if p.state != Ready { return -1; }
    p.response := response;
    r := if posted then 0 else -1;
  }
}
