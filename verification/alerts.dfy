/**
 * Operational alerts of an application: a rate-limited notifier that sends
 * one AO message per alert configuration and arms an Alert row for it
 * (app/models/alerts/alert_trigger.rb).
 */
module Alerts {
  import opened Common
  import opened Seqs
  import opened Messages

  /** `1.hour.to_i`: the suppression window, in seconds. */
  const OneHour: int := 3600

  /** An `Alert` row; `sentAt` nil means the alert is armed and not yet sent. */
  datatype AlertRecord = AlertRecord(
    id: int,
    applicationId: int,
    channelId: Option<int>,
    kind: string,
    aoMessageId: Option<int>,
    sentAt: Option<int>)

  /** An `AlertConfiguration` row: one recipient of the application's alerts. */
  datatype AlertConfiguration = AlertConfiguration(channelId: Option<int>, from: Option<string>, to: Option<string>)

  /** The rows the trigger reads and writes, with the next ids the database would assign. */
  datatype Store = Store(
    alerts: seq<AlertRecord>,
    messages: seq<AoMessage>,
    nextMessageId: int,
    nextAlertId: int)

  /** Line 10: the alert belongs to the application and is of this kind. */
  predicate OfKind(a: AlertRecord, appId: int, kind: string) {
    a.applicationId == appId && a.kind == kind
  }

  /** Line 11: the alert is armed, or was sent less than an hour ago. */
  predicate Pending(a: AlertRecord, now: int) {
    a.sentAt.None? || now - a.sentAt.value < OneHour
  }

  /** Lines 10-12: some alert of this kind is pending, so the call does nothing. */
  predicate Suppressed(alerts: seq<AlertRecord>, appId: int, kind: string, now: int) {
    exists i :: 0 <= i < |alerts| && OfKind(alerts[i], appId, kind) && Pending(alerts[i], now)
  }

  /** The position of `alerts_for_kind.first` in the table. */
  function FirstOfKind(alerts: seq<AlertRecord>, appId: int, kind: string): (r: Option<nat>)
    ensures r.None? <==> forall i :: 0 <= i < |alerts| ==> !OfKind(alerts[i], appId, kind)
    ensures r.Some? ==> (r.value < |alerts| && OfKind(alerts[r.value], appId, kind) &&
      forall i :: 0 <= i < r.value ==> !OfKind(alerts[i], appId, kind))
  {
    if alerts == [] then None
    else if OfKind(alerts[0], appId, kind) then Some(0)
    else
      match FirstOfKind(alerts[1..], appId, kind)
      case None => None
      case Some(k) => Some(k + 1)
  }

  /**
   * Line 15. The block `a.channel_id = cfg.channel_id` is an assignment,
   * whose value is the configuration's channel id: every alert of the kind
   * passes the select when that id is not nil, and none passes when it is
   * nil. So the first alert of the kind is chosen whatever its channel.
   */
  function Selected(first: Option<nat>, cfg: AlertConfiguration): (r: Option<nat>)
    ensures r.Some? <==> first.Some? && cfg.channelId.Some?
    ensures r.Some? ==> r == first
  {
    if cfg.channelId.Some? then first else None
  }

  /** Line 16: the AO message sent to one configured recipient. */
  function NewMessage(appId: int, cfg: AlertConfiguration, text: string, id: int): AoMessage {
    AoMessage(Some(id), None, Some(appId), None, cfg.from, cfg.to, Some(text), "pending", 0, None, None, map[])
  }

  /** `first` points at an alert of the kind. */
  predicate FirstValid(st: Store, appId: int, kind: string, first: Option<nat>) {
    first.Some? ==> first.value < |st.alerts| && OfKind(st.alerts[first.value], appId, kind)
  }

  /**
   * One pass of the loop of lines 14-24: a message is created; then either
   * a new Alert row points at it, or the selected alert is re-armed on it,
   * taking the configuration's channel as line 15 assigned it.
   */
  function Step(st: Store, appId: int, kind: string, text: string, first: Option<nat>,
                cfg: AlertConfiguration): (r: Store)
    requires FirstValid(st, appId, kind, first)
    ensures FirstValid(r, appId, kind, first)
    ensures r.messages == st.messages + [NewMessage(appId, cfg, text, st.nextMessageId)]
    ensures r.nextMessageId == st.nextMessageId + 1
    ensures Selected(first, cfg).None? ==>
      r.alerts == st.alerts + [AlertRecord(st.nextAlertId, appId, cfg.channelId, kind, Some(st.nextMessageId), None)]
    ensures Selected(first, cfg).Some? ==>
      var k := first.value;
      && |r.alerts| == |st.alerts|
      && r.alerts[k] == st.alerts[k].(channelId := cfg.channelId, aoMessageId := Some(st.nextMessageId), sentAt := None)
      && forall j :: 0 <= j < |st.alerts| && j != k ==> r.alerts[j] == st.alerts[j]
  {
    var id := st.nextMessageId;
    var messages := st.messages + [NewMessage(appId, cfg, text, id)];
    match Selected(first, cfg)
    case None =>
      Store(st.alerts + [AlertRecord(st.nextAlertId, appId, cfg.channelId, kind, Some(id), None)],
            messages, id + 1, st.nextAlertId + 1)
    case Some(k) =>
      Store(st.alerts[k := st.alerts[k].(channelId := cfg.channelId, aoMessageId := Some(id), sentAt := None)],
            messages, id + 1, st.nextAlertId)
  }

  /** The loop of lines 14-24 over the configurations, in order. */
  function Run(st: Store, appId: int, kind: string, text: string, first: Option<nat>,
               cfgs: seq<AlertConfiguration>): (r: Store)
    requires FirstValid(st, appId, kind, first)
    ensures FirstValid(r, appId, kind, first)
    decreases |cfgs|
  {
    if cfgs == [] then st
    else Step(Run(st, appId, kind, text, first, cfgs[..|cfgs| - 1]), appId, kind, text, first, cfgs[|cfgs| - 1])
  }

  /** `alert(kind, msg)` at time `now`. */
  function Trigger(st: Store, appId: int, cfgs: seq<AlertConfiguration>, kind: string, text: string, now: int): Store {
    if Suppressed(st.alerts, appId, kind, now) then st
    else Run(st, appId, kind, text, FirstOfKind(st.alerts, appId, kind), cfgs)
  }

  // ---------------------------------------------------------------------
  // Properties of the trigger
  // ---------------------------------------------------------------------

  /** A pending alert of the kind suppresses the call: nothing is created or modified. */
  lemma SuppressedChangesNothing(st: Store, appId: int, cfgs: seq<AlertConfiguration>, kind: string, text: string,
                                 now: int, i: nat)
    requires i < |st.alerts| && OfKind(st.alerts[i], appId, kind)
    requires st.alerts[i].sentAt.None? || now - st.alerts[i].sentAt.value < OneHour
    ensures Trigger(st, appId, cfgs, kind, text, now) == st
  {
    assert Pending(st.alerts[i], now);
  }

  /**
   * Otherwise one AO message is created per configuration, in order, each
   * from the configuration's from/to with the alert text as subject.
   */
  lemma {:induction false} RunCreatesOneMessageEach(st: Store, appId: int, kind: string, text: string,
                                                    first: Option<nat>, cfgs: seq<AlertConfiguration>)
    requires FirstValid(st, appId, kind, first)
    ensures var r := Run(st, appId, kind, text, first, cfgs);
      && |r.messages| == |st.messages| + |cfgs|
      && r.messages[..|st.messages|] == st.messages
      && r.nextMessageId == st.nextMessageId + |cfgs|
      && forall i :: 0 <= i < |cfgs| ==>
           r.messages[|st.messages| + i] == NewMessage(appId, cfgs[i], text, st.nextMessageId + i)
    decreases |cfgs|
  {
    if cfgs != [] {
      var init := cfgs[..|cfgs| - 1];
      RunCreatesOneMessageEach(st, appId, kind, text, first, init);
      var mid := Run(st, appId, kind, text, first, init);
      var r := Step(mid, appId, kind, text, first, cfgs[|cfgs| - 1]);
      forall i | 0 <= i < |cfgs|
        ensures r.messages[|st.messages| + i] == NewMessage(appId, cfgs[i], text, st.nextMessageId + i)
      {
        if i < |init| {
          assert r.messages[|st.messages| + i] == mid.messages[|st.messages| + i];
          assert init[i] == cfgs[i];
        }
      }
    }
  }

  /** Some alert of the kind is armed: not sent since it was last raised. */
  predicate Armed(alerts: seq<AlertRecord>, appId: int, kind: string) {
    exists j :: 0 <= j < |alerts| && OfKind(alerts[j], appId, kind) && alerts[j].sentAt.None?
  }

  /** The last pass of a run always leaves an armed alert of the kind. */
  lemma RunArms(st: Store, appId: int, kind: string, text: string, first: Option<nat>,
                init: seq<AlertConfiguration>, cfg: AlertConfiguration)
    requires FirstValid(st, appId, kind, first)
    ensures Armed(Step(Run(st, appId, kind, text, first, init), appId, kind, text, first, cfg).alerts, appId, kind)
  {
    var mid := Run(st, appId, kind, text, first, init);
    var r := Step(mid, appId, kind, text, first, cfg);
    if Selected(first, cfg).Some? {
      var k := first.value;
      assert FirstValid(mid, appId, kind, first);
      assert k < |mid.alerts| && OfKind(mid.alerts[k], appId, kind);
      assert r.alerts[k] == mid.alerts[k].(channelId := cfg.channelId, aoMessageId := Some(mid.nextMessageId), sentAt := None);
      assert k < |r.alerts| && OfKind(r.alerts[k], appId, kind) && r.alerts[k].sentAt.None?;
    } else {
      var j := |mid.alerts|;
      assert OfKind(r.alerts[j], appId, kind) && r.alerts[j].sentAt.None?;
    }
  }

  /**
   * After a call that was not suppressed, with at least one configuration,
   * an armed alert of the kind exists: a second call at any time is a no-op.
   */
  lemma SecondCallSuppressed(st: Store, appId: int, cfgs: seq<AlertConfiguration>, kind: string, text: string,
                             now: int, text2: string, later: int)
    requires !Suppressed(st.alerts, appId, kind, now) && cfgs != []
    ensures var r := Trigger(st, appId, cfgs, kind, text, now);
      && Suppressed(r.alerts, appId, kind, later)
      && Trigger(r, appId, cfgs, kind, text2, later) == r
  {
    var first := FirstOfKind(st.alerts, appId, kind);
    var init := cfgs[..|cfgs| - 1];
    assert cfgs == init + [cfgs[|cfgs| - 1]];
    RunArms(st, appId, kind, text, first, init, cfgs[|cfgs| - 1]);
    var r := Run(st, appId, kind, text, first, cfgs);
    var j :| 0 <= j < |r.alerts| && OfKind(r.alerts[j], appId, kind) && r.alerts[j].sentAt.None?;
    assert Pending(r.alerts[j], later);
  }

  /**
   * Line 15 at work: one stored alert of the kind (on channel 7) and two
   * recipients on channels 1 and 2. No Alert row is created; the one alert
   * ends on channel 2, armed, pointing at the second message.
   */
  lemma AssignmentSelectsFirstAlert()
    ensures var st := Store([AlertRecord(1, 5, Some(7), "no_channel", None, Some(0))], [], 100, 2);
      var cfgs := [AlertConfiguration(Some(1), Some("a"), Some("b")), AlertConfiguration(Some(2), Some("c"), Some("d"))];
      var r := Trigger(st, 5, cfgs, "no_channel", "down", 7200);
      && |r.alerts| == 1 && |r.messages| == 2
      && r.alerts[0] == AlertRecord(1, 5, Some(2), "no_channel", Some(101), None)
  {
    var st := Store([AlertRecord(1, 5, Some(7), "no_channel", None, Some(0))], [], 100, 2);
    var cfgs := [AlertConfiguration(Some(1), Some("a"), Some("b")), AlertConfiguration(Some(2), Some("c"), Some("d"))];
    assert !Suppressed(st.alerts, 5, "no_channel", 7200) by {
      assert !Pending(st.alerts[0], 7200);
    }
    assert FirstOfKind(st.alerts, 5, "no_channel") == Some(0);
    assert cfgs[..1] == [cfgs[0]] && cfgs[..1][..0] == [];
    assert Run(st, 5, "no_channel", "down", Some(0), []) == st;
    var r1 := Run(st, 5, "no_channel", "down", Some(0), cfgs[..1]);
    assert r1 == Step(st, 5, "no_channel", "down", Some(0), cfgs[0]);
    assert |r1.alerts| == 1 && r1.nextMessageId == 101 && |r1.messages| == 1;
    assert r1.alerts[0] == AlertRecord(1, 5, Some(1), "no_channel", Some(100), None);
    var r := Run(st, 5, "no_channel", "down", Some(0), cfgs);
    assert r == Step(r1, 5, "no_channel", "down", Some(0), cfgs[1]);
    assert |r.alerts| == 1 && |r.messages| == 2;
    assert r.alerts[0] == AlertRecord(1, 5, Some(2), "no_channel", Some(101), None);
  }

  // ---------------------------------------------------------------------
  // The trigger over the tables
  // ---------------------------------------------------------------------

  /** `AlertTrigger.new(application)`: the application's alerts, its AO messages and its configurations. */
  class AlertTrigger {
    const applicationId: int
    const configurations: seq<AlertConfiguration>
    var alerts: seq<AlertRecord>
    var messages: seq<AoMessage>
    var nextMessageId: int
    var nextAlertId: int

    function State(): Store
      reads this
    {
      Store(alerts, messages, nextMessageId, nextAlertId)
    }

    constructor (applicationId: int, configurations: seq<AlertConfiguration>, st: Store)
      ensures this.applicationId == applicationId && this.configurations == configurations && State() == st
    {
      this.applicationId := applicationId;
      this.configurations := configurations;
      alerts, messages := st.alerts, st.messages;
      nextMessageId, nextAlertId := st.nextMessageId, st.nextAlertId;
    }

    /** `alert(kind, msg)`; `now` stands for `Time.now.utc`. */
    method Alert(kind: string, text: string, now: int)
      modifies this`alerts, this`messages, this`nextMessageId, this`nextAlertId
      ensures State() == Trigger(old(State()), applicationId, configurations, kind, text, now)
    {
      var forKind := Filter(alerts, (a: AlertRecord) => OfKind(a, applicationId, kind));
      var pending := Filter(forKind, (a: AlertRecord) => Pending(a, now));
      PendingIffSuppressed(alerts, forKind, pending, applicationId, kind, now);
      if pending != [] {
        return;
      }
      var first := FirstOfKind(alerts, applicationId, kind);
      var i := 0;
      while i < |configurations|
        invariant 0 <= i <= |configurations|
        invariant FirstValid(old(State()), applicationId, kind, first)
        invariant State() == Run(old(State()), applicationId, kind, text, first, configurations[..i])
      {
        var cfg := configurations[i];
        ghost var before := State();
        assert Run(old(State()), applicationId, kind, text, first, configurations[..i + 1])
            == Step(before, applicationId, kind, text, first, cfg) by {
          assert configurations[..i + 1][..i] == configurations[..i];
        }
        var selected := if cfg.channelId.Some? then first else None;
        var id := nextMessageId;
        messages := messages + [NewMessage(applicationId, cfg, text, id)];
        nextMessageId := nextMessageId + 1;
        if selected.None? {
          alerts := alerts + [AlertRecord(nextAlertId, applicationId, cfg.channelId, kind, Some(id), None)];
          nextAlertId := nextAlertId + 1;
        } else {
          var k := selected.value;
          alerts := alerts[k := alerts[k].(channelId := cfg.channelId, aoMessageId := Some(id), sentAt := None)];
        }
        assert State() == Step(before, applicationId, kind, text, first, cfg);
        i := i + 1;
      }
      assert configurations[..i] == configurations;
    }
  }

  /** The two selects of lines 10-11 find something exactly when the call is suppressed. */
  lemma PendingIffSuppressed(alerts: seq<AlertRecord>, forKind: seq<AlertRecord>, pending: seq<AlertRecord>,
                             appId: int, kind: string, now: int)
    requires forKind == Filter(alerts, (a: AlertRecord) => OfKind(a, appId, kind))
    requires pending == Filter(forKind, (a: AlertRecord) => Pending(a, now))
    ensures pending != [] <==> Suppressed(alerts, appId, kind, now)
  {
    if pending != [] {
      assert pending[0] in forKind;
      var j :| 0 <= j < |forKind| && forKind[j] == pending[0];
      assert forKind[j] in alerts;
      var i :| 0 <= i < |alerts| && alerts[i] == forKind[j];
    }
    if Suppressed(alerts, appId, kind, now) {
      var i :| 0 <= i < |alerts| && OfKind(alerts[i], appId, kind) && Pending(alerts[i], now);
      assert alerts[i] in forKind;
      var j :| 0 <= j < |forKind| && forKind[j] == alerts[i];
      assert forKind[j] in pending;
    }
  }
}
