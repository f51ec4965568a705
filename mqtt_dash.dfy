/**
  The shared state of the parking / intrusion dashboard (mqtt_dash.py).

  The broker listener applies every inbound message to the store while holding
  the state lock; the render loop copies the store under the same lock and
  draws the copy. Each locked section is one atomic operation here: the class
  `Store` with `OnMessage` and `TakeSnapshot`. The pure function `Apply` is the
  specification of one message, `ApplyAll` of a whole delivery sequence; the
  lemmas state what the dashboard promises about them.
 */
module MqttDash {

  import opened Optional

  // ---------------------------------------------------------------------
  // Configuration
  // ---------------------------------------------------------------------

  const Slot1Topic: string := "parking/slot1"
  const Slot2Topic: string := "parking/slot2"
  const AlertsTopic: string := "home/intrusion/alerts"

  /** Every topic the listener subscribes to when it connects. */
  const Topics: seq<string> := [Slot1Topic, Slot2Topic, AlertsTopic]

  /** The occupancy slots: the keys of the slot maps. */
  const SlotTopics: set<string> := {Slot1Topic, Slot2Topic}

  /** The value every slot holds before its first message. */
  const UnknownStatus: string := "unknown"

  /** At most this many alerts are kept, newest first. */
  const AlertCapacity: nat := 10

  // ---------------------------------------------------------------------
  // Messages and state as values
  // ---------------------------------------------------------------------

  /** One inbound broker message: its topic, its decoded payload and the
      formatted wall-clock time at which the listener handled it. */
  datatype Message = Message(topic: string, payload: string, time: string)

  /** The three containers the listener and the render loop share. */
  datatype StoreState = StoreState(
    slotStatus: map<string, string>,
    slotUpdate: map<string, Option<string>>,
    alerts: seq<string>)

  /** The shape the store keeps at all times: exactly the two slot topics as
      keys of both slot maps, and no more alerts than the capacity. */
  ghost predicate WellFormed(s: StoreState) {
    && s.slotStatus.Keys == SlotTopics
    && s.slotUpdate.Keys == SlotTopics
    && |s.alerts| <= AlertCapacity
  }

  /** The state at process start: both slots unknown with no timestamp, no alerts. */
  function Initial(): (s: StoreState)
    ensures WellFormed(s)
    ensures forall t :: t in SlotTopics ==> s.slotStatus[t] == UnknownStatus && s.slotUpdate[t] == None
    ensures s.alerts == []
  {
    StoreState(
      map[Slot1Topic := UnknownStatus, Slot2Topic := UnknownStatus],
      map[Slot1Topic := None, Slot2Topic := None],
      [])
  }

  /** The alert entry stored for a payload received at `time`: "[time] payload". */
  function FormatAlert(time: string, payload: string): (e: string)
    ensures |e| == |time| + |payload| + 3
    ensures e[0] == '[' && e[|time| + 1..|time| + 3] == "] "
    ensures e[1..|time| + 1] == time && e[|time| + 3..] == payload
  {
    "[" + time + "] " + payload
  }

  /** Insert an entry at the front and, once the list exceeds the capacity,
      drop its last (oldest) entry. */
  function PushAlert(alerts: seq<string>, entry: string): (r: seq<string>)
    ensures |r| >= 1 && r[0] == entry
    ensures |r| == if |alerts| + 1 > AlertCapacity then |alerts| else |alerts| + 1
    ensures r[1..] == alerts[..|r| - 1]
    ensures |alerts| <= AlertCapacity ==> |r| <= AlertCapacity
  {
    var grown := [entry] + alerts;
    if |grown| > AlertCapacity then grown[..|grown| - 1] else grown
  }

  /** The effect of one message: a slot topic overwrites that slot's value and
      timestamp, the alerts topic pushes a formatted alert, any other topic is
      ignored. */
  function Apply(s: StoreState, m: Message): (r: StoreState)
    ensures WellFormed(s) ==> WellFormed(r)
  {
    if m.topic in s.slotStatus then
      s.(slotStatus := s.slotStatus[m.topic := m.payload],
         slotUpdate := s.slotUpdate[m.topic := Some(m.time)])
    else if m.topic == AlertsTopic then
      s.(alerts := PushAlert(s.alerts, FormatAlert(m.time, m.payload)))
    else
      s
  }

  /** The state after the messages `msgs`, handled in delivery order. */
  function ApplyAll(s: StoreState, msgs: seq<Message>): (r: StoreState)
    ensures WellFormed(s) ==> WellFormed(r)
  {
    if |msgs| == 0 then s else Apply(ApplyAll(s, msgs[..|msgs| - 1]), msgs[|msgs| - 1])
  }

  // ---------------------------------------------------------------------
  // The shared store
  // ---------------------------------------------------------------------

  /** The lock-guarded store. Each method is one `with state_lock:` section. */
  class Store {
    var slotStatus: map<string, string>
    var slotUpdate: map<string, Option<string>>
    var alerts: seq<string>

    function State(): StoreState
      reads this
    {
      StoreState(slotStatus, slotUpdate, alerts)
    }

    ghost predicate Valid()
      reads this
    {
      WellFormed(State())
    }

    /** The module-level initialisation of the three containers. */
    constructor ()
      ensures Valid()
      ensures State() == Initial()
    {
      slotStatus := map[Slot1Topic := UnknownStatus, Slot2Topic := UnknownStatus];
      slotUpdate := map[Slot1Topic := None, Slot2Topic := None];
      alerts := [];
    }

    /** The message callback's locked section, with the decoded payload and the
        formatted receive time passed in. */
    method OnMessage(topic: string, payload: string, now: string)
      requires Valid()
      modifies this
      ensures Valid()
      ensures State() == Apply(old(State()), Message(topic, payload, now))
      ensures topic in SlotTopics ==>
        && slotStatus == old(slotStatus)[topic := payload]
        && slotUpdate == old(slotUpdate)[topic := Some(now)]
        && alerts == old(alerts)
      ensures topic == AlertsTopic ==>
        && slotStatus == old(slotStatus) && slotUpdate == old(slotUpdate)
        && alerts[0] == FormatAlert(now, payload)
        && alerts[1..] == old(alerts)[..|alerts| - 1]
        && |alerts| == if |old(alerts)| == AlertCapacity then AlertCapacity else |old(alerts)| + 1
      ensures topic !in SlotTopics && topic != AlertsTopic ==> State() == old(State())
    {
      if topic in slotStatus {
        slotStatus := slotStatus[topic := payload];
        slotUpdate := slotUpdate[topic := Some(now)];
      } else if topic == AlertsTopic {
        alerts := [FormatAlert(now, payload)] + alerts;
        if |alerts| > AlertCapacity {
          alerts := alerts[..|alerts| - 1];
        }
      }
    }

    /** The render loop's locked section: copy both slots and the alert list. */
    method TakeSnapshot() returns (snap: Snapshot)
      requires Valid()
      ensures snap.status1 == slotStatus[Slot1Topic] && snap.status2 == slotStatus[Slot2Topic]
      ensures snap.update1 == slotUpdate[Slot1Topic] && snap.update2 == slotUpdate[Slot2Topic]
      ensures snap.alerts == alerts && |snap.alerts| <= AlertCapacity
    {
      var s1 := slotStatus[Slot1Topic];
      var s2 := slotStatus[Slot2Topic];
      var u1 := slotUpdate[Slot1Topic];
      var u2 := slotUpdate[Slot2Topic];
      var aCopy := alerts;
      snap := Snapshot(s1, s2, u1, u2, aCopy);
    }
  }

  // ---------------------------------------------------------------------
  // Snapshot and what the render loop draws from it
  // ---------------------------------------------------------------------

  /** The copy the render loop works from. */
  datatype Snapshot = Snapshot(
    status1: string, status2: string,
    update1: Option<string>, update2: Option<string>,
    alerts: seq<string>)

  /** The snapshot of a state, as `Store.TakeSnapshot` copies it. */
  function SnapshotOf(s: StoreState): (snap: Snapshot)
    requires WellFormed(s)
    ensures snap.status1 == s.slotStatus[Slot1Topic] && snap.update1 == s.slotUpdate[Slot1Topic]
    ensures snap.status2 == s.slotStatus[Slot2Topic] && snap.update2 == s.slotUpdate[Slot2Topic]
    ensures snap.alerts == s.alerts
  {
    Snapshot(s.slotStatus[Slot1Topic], s.slotStatus[Slot2Topic],
             s.slotUpdate[Slot1Topic], s.slotUpdate[Slot2Topic], s.alerts)
  }

  /** The indicator drawn for a slot. */
  datatype Indicator = Occupied | Free | WaitingForData

  /** Only the exact payloads "occupied" and "free" are recognised; every
      other stored value, "unknown" and the empty string included, is drawn as
      waiting for data. */
  function Classify(status: string): (ind: Indicator)
    ensures ind == Occupied <==> status == "occupied"
    ensures ind == Free <==> status == "free"
    ensures ind == WaitingForData <==> status != "occupied" && status != "free"
  {
    if status == "occupied" then Occupied
    else if status == "free" then Free
    else WaitingForData
  }

  /** The "Last update" caption under a slot, shown only when the timestamp is
      truthy in Python: present and not the empty string. */
  function Caption(update: Option<string>): (c: Option<string>)
    ensures c.Some? <==> update.Some? && update.value != ""
    ensures c.Some? ==> c.value == "Last update: " + update.value
  {
    match update
    case Some(t) => if t != "" then Some("Last update: " + t) else None
    case None => None
  }

  datatype SlotPanel = SlotPanel(indicator: Indicator, caption: Option<string>)

  /** The alert panel: one line per alert, newest first, or the placeholder. */
  datatype AlertPanel = NoAlertsYet | AlertLines(lines: seq<string>)

  datatype View = View(slot1: SlotPanel, slot2: SlotPanel, alertPanel: AlertPanel)

  /** What one render tick draws from a snapshot. */
  function Render(snap: Snapshot): (v: View)
    ensures v.slot1 == SlotPanel(Classify(snap.status1), Caption(snap.update1))
    ensures v.slot2 == SlotPanel(Classify(snap.status2), Caption(snap.update2))
    ensures v.alertPanel.NoAlertsYet? <==> snap.alerts == []
    ensures v.alertPanel.AlertLines? ==> v.alertPanel.lines == snap.alerts
  {
    View(SlotPanel(Classify(snap.status1), Caption(snap.update1)),
         SlotPanel(Classify(snap.status2), Caption(snap.update2)),
         if snap.alerts != [] then AlertLines(snap.alerts) else NoAlertsYet)
  }

  // ---------------------------------------------------------------------
  // Reference definitions over a delivery sequence
  // ---------------------------------------------------------------------

  /** The last message in `msgs` on topic `t`, if there is one: a message
      on `t` after which no message on `t` follows. */
  function LastWrite(msgs: seq<Message>, t: string): (r: Option<Message>)
    ensures r.Some? ==> r.value in msgs && r.value.topic == t
    ensures r.Some? ==>
      exists i :: 0 <= i < |msgs| && msgs[i] == r.value && (forall j :: i < j < |msgs| ==> msgs[j].topic != t)
    ensures r.None? ==> forall i :: 0 <= i < |msgs| ==> msgs[i].topic != t
  {
    if |msgs| == 0 then None
    else if msgs[|msgs| - 1].topic == t then Some(msgs[|msgs| - 1])
    else LastWrite(msgs[..|msgs| - 1], t)
  }

  /** The formatted alert entries of `msgs`, in arrival order. */
  function AlertEntries(msgs: seq<Message>): (es: seq<string>)
    ensures |es| <= |msgs|
  {
    if |msgs| == 0 then []
    else
      var m := msgs[|msgs| - 1];
      AlertEntries(msgs[..|msgs| - 1]) + (if m.topic == AlertsTopic then [FormatAlert(m.time, m.payload)] else [])
  }

  /** `entries` with the most recent (last) one first. */
  function NewestFirst(entries: seq<string>): (r: seq<string>)
  {
    if |entries| == 0 then [] else [entries[|entries| - 1]] + NewestFirst(entries[..|entries| - 1])
  }

  /** At most the first `n` elements of `s`. */
  function Take(s: seq<string>, n: nat): (r: seq<string>)
    ensures |r| == if |s| <= n then |s| else n
    ensures r == s[..|r|]
  {
    if |s| <= n then s else s[..n]
  }

  // ---------------------------------------------------------------------
  // Properties
  // ---------------------------------------------------------------------

  /** Before any message both slots draw as waiting, with no caption, and the
      alert panel shows its placeholder. */
  lemma InitialView()
    ensures Render(SnapshotOf(Initial())) ==
      View(SlotPanel(WaitingForData, None), SlotPanel(WaitingForData, None), NoAlertsYet)
  {
  }

  /** A slot message sets that slot's value and timestamp; the other slot and
      the alert list keep theirs. */
  lemma SlotMessageEffect(s: StoreState, m: Message, other: string)
    requires WellFormed(s) && m.topic in SlotTopics
    requires other in SlotTopics && other != m.topic
    ensures Apply(s, m).slotStatus[m.topic] == m.payload
    ensures Apply(s, m).slotUpdate[m.topic] == Some(m.time)
    ensures Apply(s, m).slotStatus[other] == s.slotStatus[other]
    ensures Apply(s, m).slotUpdate[other] == s.slotUpdate[other]
    ensures Apply(s, m).alerts == s.alerts
  {
  }

  /** An alert message puts "[time] payload" at index 0 and shifts the earlier
      alerts down by one (the oldest falling off at capacity); the slots are
      unchanged. */
  lemma AlertMessageEffect(s: StoreState, m: Message)
    requires WellFormed(s) && m.topic == AlertsTopic
    ensures Apply(s, m).slotStatus == s.slotStatus && Apply(s, m).slotUpdate == s.slotUpdate
    ensures Apply(s, m).alerts[0] == FormatAlert(m.time, m.payload)
    ensures forall i :: 1 <= i < |Apply(s, m).alerts| ==> Apply(s, m).alerts[i] == s.alerts[i - 1]
    ensures |Apply(s, m).alerts| == if |s.alerts| == AlertCapacity then AlertCapacity else |s.alerts| + 1
  {
  }

  /** A message on any topic other than the slots and the alerts changes nothing. */
  lemma OtherTopicIgnored(s: StoreState, m: Message)
    requires WellFormed(s) && m.topic !in SlotTopics && m.topic != AlertsTopic
    ensures Apply(s, m) == s
  {
  }

  /** A delivery sequence made only of unsubscribed topics leaves the state unchanged. */
  lemma {:induction false} IgnoredTopicsIrrelevant(s: StoreState, msgs: seq<Message>)
    requires WellFormed(s)
    requires forall i :: 0 <= i < |msgs| ==> msgs[i].topic !in Topics
    ensures ApplyAll(s, msgs) == s
  {
    if |msgs| > 0 {
      IgnoredTopicsIrrelevant(s, msgs[..|msgs| - 1]);
    }
  }

  /** The messages of `msgs` on the three subscribed topics, in delivery order. */
  function Subscribed(msgs: seq<Message>): (r: seq<Message>)
    ensures |r| <= |msgs|
    ensures forall i :: 0 <= i < |r| ==> r[i].topic in Topics
  {
    if |msgs| == 0 then []
    else
      var m := msgs[|msgs| - 1];
      Subscribed(msgs[..|msgs| - 1]) + (if m.topic in Topics then [m] else [])
  }

  /** Messages on unsubscribed topics can be dropped from any delivery
      sequence, wherever they occur in it. */
  lemma {:induction false} UnsubscribedDropped(s: StoreState, msgs: seq<Message>)
    requires WellFormed(s)
    ensures ApplyAll(s, msgs) == ApplyAll(s, Subscribed(msgs))
  {
    if |msgs| > 0 {
      var init := msgs[..|msgs| - 1];
      var m := msgs[|msgs| - 1];
      UnsubscribedDropped(s, init);
      if m.topic in Topics {
        ApplyAllSnoc(s, Subscribed(init), m);
      } else {
        assert Subscribed(msgs) == Subscribed(init) + [];
        assert Subscribed(msgs) == Subscribed(init);
        assert ApplyAll(s, msgs) == ApplyAll(s, init) by {
          assert msgs == init + [m];
          ApplyAllSnoc(s, init, m);
          OtherTopicIgnored(ApplyAll(s, init), m);
        }
      }
    }
  }

  /** Applying one more message at the end of a sequence. */
  lemma ApplyAllSnoc(s: StoreState, msgs: seq<Message>, m: Message)
    ensures ApplyAll(s, msgs + [m]) == Apply(ApplyAll(s, msgs), m)
  {
    assert (msgs + [m])[..|msgs|] == msgs;
  }

  /** Last write wins: after any delivery sequence each slot holds the payload
      and receive time of the last message on its topic, or what it held
      before if there was none. */
  lemma {:induction false} LastWriteWins(s: StoreState, msgs: seq<Message>, t: string)
    requires WellFormed(s) && t in SlotTopics
    ensures LastWrite(msgs, t).Some? ==>
      && ApplyAll(s, msgs).slotStatus[t] == LastWrite(msgs, t).value.payload
      && ApplyAll(s, msgs).slotUpdate[t] == Some(LastWrite(msgs, t).value.time)
    ensures LastWrite(msgs, t).None? ==>
      && ApplyAll(s, msgs).slotStatus[t] == s.slotStatus[t]
      && ApplyAll(s, msgs).slotUpdate[t] == s.slotUpdate[t]
  {
    if |msgs| > 0 {
      var init := msgs[..|msgs| - 1];
      var m := msgs[|msgs| - 1];
      var prev := ApplyAll(s, init);
      LastWriteWins(s, init, t);
      SlotStep(prev, m, t);
      assert ApplyAll(s, msgs) == Apply(prev, m);
    }
  }

  /** A slot's value and timestamp only react to messages on its own topic. */
  lemma SlotStep(s: StoreState, m: Message, t: string)
    requires WellFormed(s) && t in SlotTopics
    ensures Apply(s, m).slotStatus[t] == if m.topic == t then m.payload else s.slotStatus[t]
    ensures Apply(s, m).slotUpdate[t] == if m.topic == t then Some(m.time) else s.slotUpdate[t]
  {
  }

  /** An entry pushed onto a list truncated to the capacity gives the same
      list as truncating after the push. */
  lemma {:induction false} PushAlertTake(xs: seq<string>, e: string)
    ensures PushAlert(Take(xs, AlertCapacity), e) == Take([e] + xs, AlertCapacity)
  {
    var a := Take(xs, AlertCapacity);
    var r := PushAlert(a, e);
    var t := Take([e] + xs, AlertCapacity);
    assert |r| == |t|;
    forall i | 0 <= i < |r| ensures r[i] == t[i] {
      if i > 0 {
        assert r[i] == r[1..][i - 1];
      }
    }
  }

  /** The alert list only reacts to messages on the alerts topic. */
  lemma AlertsStep(s: StoreState, m: Message)
    requires WellFormed(s)
    ensures Apply(s, m).alerts ==
      if m.topic == AlertsTopic then PushAlert(s.alerts, FormatAlert(m.time, m.payload)) else s.alerts
  {
  }

  /** The alert list is always the newest-first sequence of the alert entries
      received, followed by the earlier list, cut to the capacity. */
  lemma {:induction false} AlertWindow(s: StoreState, msgs: seq<Message>)
    requires WellFormed(s)
    ensures ApplyAll(s, msgs).alerts == Take(NewestFirst(AlertEntries(msgs)) + s.alerts, AlertCapacity)
  {
    if |msgs| == 0 {
      assert Take(s.alerts, AlertCapacity) == s.alerts;
    } else {
      var init := msgs[..|msgs| - 1];
      var m := msgs[|msgs| - 1];
      var prev := ApplyAll(s, init);
      AlertWindow(s, init);
      AlertsStep(prev, m);
      assert ApplyAll(s, msgs) == Apply(prev, m);
      if m.topic == AlertsTopic {
        var e := FormatAlert(m.time, m.payload);
        assert AlertEntries(msgs) == AlertEntries(init) + [e];
        WindowPush(AlertEntries(init), e, s.alerts);
      } else {
        assert AlertEntries(msgs) == AlertEntries(init);
      }
    }
  }

  /** One alert entry moves the window by one. */
  lemma {:induction false} WindowPush(es: seq<string>, e: string, earlier: seq<string>)
    ensures PushAlert(Take(NewestFirst(es) + earlier, AlertCapacity), e)
         == Take(NewestFirst(es + [e]) + earlier, AlertCapacity)
  {
    assert NewestFirst(es + [e]) == [e] + NewestFirst(es) by {
      assert (es + [e])[..|es + [e]| - 1] == es;
    }
    PushAlertTake(NewestFirst(es) + earlier, e);
    assert [e] + (NewestFirst(es) + earlier) == ([e] + NewestFirst(es)) + earlier;
  }

  /** The newest-first order reverses the arrival order. */
  lemma {:induction false} NewestFirstAt(entries: seq<string>, i: nat)
    requires i < |entries|
    ensures |NewestFirst(entries)| == |entries|
    ensures NewestFirst(entries)[i] == entries[|entries| - 1 - i]
  {
    NewestFirstLength(entries);
    if i > 0 {
      NewestFirstAt(entries[..|entries| - 1], i - 1);
    }
  }

  lemma {:induction false} NewestFirstLength(entries: seq<string>)
    ensures |NewestFirst(entries)| == |entries|
  {
    if |entries| > 0 {
      NewestFirstLength(entries[..|entries| - 1]);
    }
  }

  /** Starting from the initial store, the alert list never exceeds the
      capacity and holds exactly the last min(n, capacity) of the n alert
      entries received, newest first; after capacity + k alerts it holds the
      last capacity of them. */
  lemma {:induction false} AlertsAfterPushes(msgs: seq<Message>)
    ensures |ApplyAll(Initial(), msgs).alerts| <= AlertCapacity
    ensures var es := AlertEntries(msgs);
      var n := if |es| <= AlertCapacity then |es| else AlertCapacity;
      ApplyAll(Initial(), msgs).alerts == NewestFirst(es[|es| - n..])
  {
    var es := AlertEntries(msgs);
    AlertWindow(Initial(), msgs);
    assert NewestFirst(es) + [] == NewestFirst(es);
    TakeNewestFirst(es);
  }

  /** Cutting the newest-first order to the capacity keeps the last entries. */
  lemma {:induction false} TakeNewestFirst(es: seq<string>)
    ensures var n := if |es| <= AlertCapacity then |es| else AlertCapacity;
      Take(NewestFirst(es), AlertCapacity) == NewestFirst(es[|es| - n..])
  {
    var n := if |es| <= AlertCapacity then |es| else AlertCapacity;
    var got := Take(NewestFirst(es), AlertCapacity);
    var want := NewestFirst(es[|es| - n..]);
    NewestFirstLength(es);
    NewestFirstLength(es[|es| - n..]);
    assert |got| == n && |want| == n;
    forall i | 0 <= i < n ensures got[i] == want[i] {
      assert got[i] == NewestFirst(es)[i];
      NewestFirstAt(es, i);
      NewestFirstAt(es[|es| - n..], i);
      assert es[|es| - n..][n - 1 - i] == es[|es| - 1 - i];
    }
    assert got == want;
  }

  /** The render loop's copy does not follow later updates: after a snapshot
      is taken, a further message changes the store but not the copy. The
      alert list is a value here, so this holds whether or not the list is
      copied; the aliasing the copy prevents is not represented. */
  method SnapshotThenMessage(store: Store, m: Message) returns (snap: Snapshot)
    requires store.Valid()
    modifies store
    ensures store.Valid()
    ensures snap == SnapshotOf(old(store.State()))
    ensures store.State() == Apply(old(store.State()), m)
  {
    snap := store.TakeSnapshot();
    store.OnMessage(m.topic, m.payload, m.time);
  }
}
