/*
 * Value-level specification of the luminosity module manager: what one
 * processing scan, one round of publications, one order and one command
 * message do to the registered sensor slots, the module frequency and the
 * outside world. The class in luminosity.dfy is proved against these
 * functions; the lemmas here state what they mean.
 *
 * The drivers themselves (their process(), trigger, value and data-sent
 * marking) are abstract: a slot records what the manager can observe of
 * its driver, and what process() reports is an input.
 */
module LuminositySpec {
  import opened Sequences

  datatype Option<T> = None | Some(value: T)

  // ---------------------------------------------------------------------------
  // Header constants and casts

  /** Constants of the module header: slot capacity, default, minimum and maximum frequency (seconds). */
  datatype Settings = Settings(maxSensors: nat, deflFreq: nat, minFreq: nat, maxFreq: nat)

  /** Conversion of an integer to a 16-bit unsigned integer (C conversion modulo 2^16). */
  function ToUint16(v: int): (r: nat)
    ensures r < 0x1_0000
    ensures (v - r) % 0x1_0000 == 0
    ensures 0 <= v < 0x1_0000 ==> r == v
  {
    v % 0x1_0000
  }

  /** The frequency setter of the base module keeps a requested value within [lo, hi]. */
  function Clamp(v: nat, lo: nat, hi: nat): (r: nat)
    ensures lo <= hi ==> lo <= r <= hi
    ensures lo <= v <= hi ==> r == v
    ensures lo <= hi && v < lo ==> r == lo
    ensures lo <= hi && hi < v ==> r == hi
  {
    if v < lo then lo else if v > hi then hi else v
  }

  /** C conversion of a floating-point value to int: truncation toward zero. */
  function Trunc(x: real): (n: int)
    ensures 0.0 <= x ==> 0 <= n && n as real <= x < n as real + 1.0
    ensures x < 0.0 ==> n <= 0 && n as real - 1.0 < x <= n as real
  {
    if x >= 0.0 then x.Floor else -((-x).Floor)
  }

  /** `p` is a prefix of `s` (what strncmp(s, p, strlen(p)) == 0 tests). */
  predicate IsPrefix(p: string, s: string) {
    |p| <= |s| && s[..|p|] == p
  }

  // ---------------------------------------------------------------------------
  // Sensor slots and the outside world

  datatype Chip = Tsl2561Chip | Max44009Chip

  /**
   * What the manager observes of a registered driver: its kind, its bus
   * address (the sub-identifier it publishes under), whether it is powered,
   * its trigger, its current value, and how many times its data was marked
   * as sent.
   */
  datatype Slot = Slot(chip: Chip, addr: nat, powered: bool, trigger: bool, value: real, sentMarks: nat)

  /** A driver just started and powered off, with nothing to report yet. */
  function NewSlot(chip: Chip, addr: nat): (s: Slot)
    ensures s.chip == chip && s.addr == addr && !s.powered && !s.trigger && s.sentMarks == 0
  {
    Slot(chip, addr, false, false, 0.0, 0)
  }

  function MarkSent(s: Slot): Slot {
    s.(sentMarks := s.sentMarks + 1)
  }

  /** Published messages: one sensor value (truncated to an integer), or the module status. */
  datatype Message = ValueMsg(value: int, subId: nat) | StatusMsg

  /** Outward effects: a publication, or a configuration document written to storage. */
  datatype Event = Publish(msg: Message) | Store(doc: map<string, nat>)

  /**
   * The k-th outward operation succeeds; `outcomes` lists the results of the
   * successive publications and writes, and a missing entry is a failure.
   */
  predicate Outcome(outcomes: seq<bool>, k: nat) {
    k < |outcomes| && outcomes[k]
  }

  /** The outcomes left after `n` operations. */
  function Drop(outcomes: seq<bool>, n: nat): (rest: seq<bool>)
    ensures forall k: nat :: Outcome(rest, k) == Outcome(outcomes, n + k)
  {
    if n <= |outcomes| then outcomes[n..] else []
  }

  lemma DropDrop(outcomes: seq<bool>, n: nat, m: nat)
    ensures Drop(Drop(outcomes, n), m) == Drop(outcomes, n + m)
  {
  }

  function Publications(msgs: seq<Message>): (events: seq<Event>)
    ensures |events| == |msgs|
    ensures forall k :: 0 <= k < |msgs| ==> events[k] == Publish(msgs[k])
  {
    if msgs == [] then [] else [Publish(msgs[0])] + Publications(msgs[1..])
  }

  lemma PublicationsAppend(a: seq<Message>, b: seq<Message>)
    ensures Publications(a + b) == Publications(a) + Publications(b)
  {
  }

  // ---------------------------------------------------------------------------
  // Processing scan

  /** What a driver's process() leaves observable: its trigger and its value. */
  datatype Reading = Reading(trigger: bool, value: real)

  /** Slot `s`, at position `i`, after its driver processed; with no reading it is unchanged. */
  function Tick(s: Slot, readings: seq<Reading>, i: nat): (t: Slot)
    ensures t.chip == s.chip && t.addr == s.addr && t.powered == s.powered && t.sentMarks == s.sentMarks
  {
    if i < |readings| then s.(trigger := readings[i].trigger, value := readings[i].value) else s
  }

  /** The slot after its driver processed (an empty slot stays empty). */
  function TickSlot(o: Option<Slot>, readings: seq<Reading>, i: nat): (t: Option<Slot>)
    ensures t.Some? <==> o.Some?
  {
    match o
    case None => None
    case Some(s) => Some(Tick(s, readings, i))
  }

  /** The shared map after slot `t` (already processed) had its turn: a triggered driver writes its value. */
  function Record(t: Option<Slot>, shared: map<nat, real>): map<nat, real> {
    if IsPending(t) then shared[t.value.addr := t.value.value] else shared
  }

  /** The slot at index `i` (numbered from `at`) holds a driver that triggered when processed. */
  predicate Fires(slots: seq<Option<Slot>>, readings: seq<Reading>, at: nat, i: int) {
    0 <= i < |slots| && IsPending(TickSlot(slots[i], readings, at + i))
  }

  /** ... and that driver publishes under sub-identifier `k`. */
  predicate Writes(slots: seq<Option<Slot>>, readings: seq<Reading>, at: nat, i: int, k: nat) {
    Fires(slots, readings, at, i) && slots[i].value.addr == k
  }

  datatype ScanResult = ScanResult(slots: seq<Option<Slot>>, trigger: bool, shared: map<nat, real>)

  /**
   * One scan over the slots numbered from `at`: every driver processes, and
   * every one that triggers raises the module trigger and writes its value
   * under its sub-identifier in the shared map.
   */
  function Scan(slots: seq<Option<Slot>>, readings: seq<Reading>, at: nat, trigger: bool, shared: map<nat, real>): (r: ScanResult)
    ensures |r.slots| == |slots|
    decreases |slots|
  {
    if slots == [] then ScanResult([], trigger, shared)
    else
      var t := TickSlot(slots[0], readings, at);
      var r := Scan(slots[1..], readings, at + 1, trigger || IsPending(t), Record(t, shared));
      ScanResult([t] + r.slots, r.trigger, r.shared)
  }

  /** Numbering the slots from `at` or dropping the first one and numbering from `at + 1` agree. */
  lemma ShiftAt(slots: seq<Option<Slot>>, readings: seq<Reading>, at: nat, i: nat, k: nat)
    requires slots != []
    ensures Fires(slots, readings, at, i + 1) <==> Fires(slots[1..], readings, at + 1, i)
    ensures Writes(slots, readings, at, i + 1, k) <==> Writes(slots[1..], readings, at + 1, i, k)
    ensures 0 <= i < |slots| - 1 ==> slots[1..][i] == slots[i + 1] && at + 1 + i == at + (i + 1)
  {
    if i < |slots| - 1 {
      assert slots[1..][i] == slots[i + 1];
    }
  }

  /** The scan resumed at slot `cur` of the whole list: slots before `cur` are left as they are. */
  ghost function ScanFrom(slots: seq<Option<Slot>>, cur: nat, readings: seq<Reading>, trigger: bool, shared: map<nat, real>): ScanResult
    decreases |slots| - cur
  {
    if cur >= |slots| then ScanResult(slots, trigger, shared)
    else
      var t := TickSlot(slots[cur], readings, cur);
      ScanFrom(slots[cur := t], cur + 1, readings, trigger || IsPending(t), Record(t, shared))
  }

  ghost predicate ScanFromMatches(slots: seq<Option<Slot>>, cur: nat, readings: seq<Reading>, trigger: bool, shared: map<nat, real>)
    requires cur <= |slots|
  {
    var r := Scan(slots[cur..], readings, cur, trigger, shared);
    ScanFrom(slots, cur, readings, trigger, shared) == ScanResult(slots[..cur] + r.slots, r.trigger, r.shared)
  }

  /** The scan resumed at `cur` is the scan of the slots from `cur` on, after the untouched prefix. */
  lemma {:induction false} ScanFromIsScan(slots: seq<Option<Slot>>, cur: nat, readings: seq<Reading>, trigger: bool, shared: map<nat, real>)
    requires cur <= |slots|
    ensures ScanFromMatches(slots, cur, readings, trigger, shared)
    decreases |slots| - cur
  {
    if cur == |slots| {
      assert slots[..cur] == slots && slots[cur..] == [];
    } else {
      var t := TickSlot(slots[cur], readings, cur);
      ScanFromIsScan(slots[cur := t], cur + 1, readings, trigger || IsPending(t), Record(t, shared));
      ScanFromStep(slots, cur, readings, trigger, shared);
    }
  }

  lemma ScanFromStep(slots: seq<Option<Slot>>, cur: nat, readings: seq<Reading>, trigger: bool, shared: map<nat, real>)
    requires cur < |slots|
    requires var t := TickSlot(slots[cur], readings, cur);
      ScanFromMatches(slots[cur := t], cur + 1, readings, trigger || IsPending(t), Record(t, shared))
    ensures ScanFromMatches(slots, cur, readings, trigger, shared)
  {
    var t := TickSlot(slots[cur], readings, cur);
    var marked := slots[cur := t];
    assert slots[cur..][0] == slots[cur] && slots[cur..][1..] == slots[cur + 1..];
    assert marked[cur + 1..] == slots[cur + 1..];
    assert marked[..cur + 1] == slots[..cur] + [t];
    var r := Scan(slots[cur + 1..], readings, cur + 1, trigger || IsPending(t), Record(t, shared));
    assert (slots[..cur] + [t]) + r.slots == slots[..cur] + ([t] + r.slots);
  }

  /** Every slot is replaced by its processed driver, and empty slots stay empty. */
  lemma {:induction false} ScanSlots(slots: seq<Option<Slot>>, readings: seq<Reading>, at: nat, trigger: bool, shared: map<nat, real>)
    ensures forall i :: 0 <= i < |slots| ==>
      Scan(slots, readings, at, trigger, shared).slots[i] == TickSlot(slots[i], readings, at + i)
    decreases |slots|
  {
    if slots != [] {
      var t := TickSlot(slots[0], readings, at);
      ScanSlots(slots[1..], readings, at + 1, trigger || IsPending(t), Record(t, shared));
      forall i | 1 <= i < |slots|
        ensures slots[1..][i - 1] == slots[i] && at + 1 + (i - 1) == at + i
      {
      }
    }
  }

  /** The module trigger is raised exactly when it was already raised or some driver fired; it is never cleared. */
  lemma {:induction false} ScanTrigger(slots: seq<Option<Slot>>, readings: seq<Reading>, at: nat, trigger: bool, shared: map<nat, real>)
    ensures Scan(slots, readings, at, trigger, shared).trigger <==>
      trigger || exists i :: Fires(slots, readings, at, i)
    decreases |slots|
  {
    if slots != [] {
      var t := TickSlot(slots[0], readings, at);
      var rest, at1 := slots[1..], at + 1;
      ScanTrigger(rest, readings, at1, trigger || IsPending(t), Record(t, shared));
      assert Fires(slots, readings, at, 0) == IsPending(t);
      if exists i :: Fires(slots, readings, at, i) {
        var i :| Fires(slots, readings, at, i);
        if i > 0 {
          ShiftAt(slots, readings, at, i - 1, 0);
          assert Fires(rest, readings, at1, i - 1);
        }
      }
      if exists i :: Fires(rest, readings, at1, i) {
        var i :| Fires(rest, readings, at1, i);
        ShiftAt(slots, readings, at, i, 0);
        assert Fires(slots, readings, at, i + 1);
      }
    }
  }

  /** After a scan a sub-identifier has an entry exactly when it had one before or a fired driver wrote it. */
  lemma {:induction false} ScanSharedKeys(slots: seq<Option<Slot>>, readings: seq<Reading>, at: nat, trigger: bool, shared: map<nat, real>, k: nat)
    ensures k in Scan(slots, readings, at, trigger, shared).shared <==>
      k in shared || exists i :: Writes(slots, readings, at, i, k)
    decreases |slots|
  {
    if slots != [] {
      var t := TickSlot(slots[0], readings, at);
      var rest, at1, shared1 := slots[1..], at + 1, Record(t, shared);
      ScanSharedKeys(rest, readings, at1, trigger || IsPending(t), shared1, k);
      assert k in shared1 <==> k in shared || Writes(slots, readings, at, 0, k);
      if exists i :: Writes(slots, readings, at, i, k) {
        var i :| Writes(slots, readings, at, i, k);
        if i > 0 {
          ShiftAt(slots, readings, at, i - 1, k);
          assert Writes(rest, readings, at1, i - 1, k);
        }
      }
      if exists i :: Writes(rest, readings, at1, i, k) {
        var i :| Writes(rest, readings, at1, i, k);
        ShiftAt(slots, readings, at, i, k);
        assert Writes(slots, readings, at, i + 1, k);
      }
    }
  }

  /** An entry no driver writes during a scan keeps its value. */
  lemma {:induction false} ScanSharedUntouched(slots: seq<Option<Slot>>, readings: seq<Reading>, at: nat, trigger: bool, shared: map<nat, real>, k: nat)
    requires k in shared
    requires forall i :: !Writes(slots, readings, at, i, k)
    ensures var r := Scan(slots, readings, at, trigger, shared);
      k in r.shared && r.shared[k] == shared[k]
    decreases |slots|
  {
    if slots != [] {
      var t := TickSlot(slots[0], readings, at);
      var rest, at1, shared1 := slots[1..], at + 1, Record(t, shared);
      assert !Writes(slots, readings, at, 0, k);
      forall j ensures !Writes(rest, readings, at1, j, k) {
        if 0 <= j { ShiftAt(slots, readings, at, j, k); }
      }
      ScanSharedUntouched(rest, readings, at1, trigger || IsPending(t), shared1, k);
    }
  }

  /** After a scan, the entry of a sub-identifier holds the value of the last driver that wrote it. */
  lemma {:induction false} ScanSharedLastWriter(slots: seq<Option<Slot>>, readings: seq<Reading>, at: nat, trigger: bool, shared: map<nat, real>, k: nat, i: nat)
    requires Writes(slots, readings, at, i, k)
    requires forall j :: i < j ==> !Writes(slots, readings, at, j, k)
    ensures var r := Scan(slots, readings, at, trigger, shared);
      k in r.shared && r.shared[k] == TickSlot(slots[i], readings, at + i).value.value
    decreases |slots|
  {
    var t := TickSlot(slots[0], readings, at);
    var rest, at1, shared1 := slots[1..], at + 1, Record(t, shared);
    if i == 0 {
      forall j ensures !Writes(rest, readings, at1, j, k) {
        if 0 <= j { ShiftAt(slots, readings, at, j, k); }
      }
      ScanSharedUntouched(rest, readings, at1, trigger || IsPending(t), shared1, k);
    } else {
      ShiftAt(slots, readings, at, i - 1, k);
      forall j | i - 1 < j ensures !Writes(rest, readings, at1, j, k) {
        if 0 <= j { ShiftAt(slots, readings, at, j, k); }
      }
      ScanSharedLastWriter(rest, readings, at1, trigger || IsPending(t), shared1, k, i - 1);
    }
  }

  // ---------------------------------------------------------------------------
  // Publication round

  /** A slot whose driver holds data to publish. */
  predicate IsPending(o: Option<Slot>) {
    o.Some? && o.value.trigger
  }

  function ValueMessage(s: Slot): Message {
    ValueMsg(Trunc(s.value), s.addr)
  }

  /** The messages of all pending drivers, in slot order. */
  function Pending(slots: seq<Option<Slot>>): (msgs: seq<Message>)
    ensures |msgs| <= |slots|
  {
    if slots == [] then []
    else (if IsPending(slots[0]) then [ValueMessage(slots[0].value)] else []) + Pending(slots[1..])
  }

  /** How many pending drivers come before index `i`. */
  function Rank(slots: seq<Option<Slot>>, i: nat): nat
    requires i <= |slots|
  {
    |Pending(slots[..i])|
  }

  datatype SendResult = SendResult(ok: bool, slots: seq<Option<Slot>>, msgs: seq<Message>)

  /**
   * One publication round: every pending driver in turn publishes its value
   * and is marked as sent; the round stops at the first publication that
   * fails, which leaves that driver and all later ones untouched.
   */
  function SendAll(slots: seq<Option<Slot>>, outcomes: seq<bool>): (r: SendResult)
    ensures |r.slots| == |slots|
    ensures !r.ok ==> 1 <= |r.msgs|
    decreases |slots|
  {
    if slots == [] then SendResult(true, [], [])
    else if !IsPending(slots[0]) then
      var r := SendAll(slots[1..], outcomes);
      SendResult(r.ok, [slots[0]] + r.slots, r.msgs)
    else if !Outcome(outcomes, 0) then
      SendResult(false, slots, [ValueMessage(slots[0].value)])
    else
      var r := SendAll(slots[1..], Drop(outcomes, 1));
      SendResult(r.ok, [Some(MarkSent(slots[0].value))] + r.slots, [ValueMessage(slots[0].value)] + r.msgs)
  }

  /** The round publishes the pending drivers' messages in slot order, as far as it gets. */
  lemma {:induction false} SendAllPublishesPending(slots: seq<Option<Slot>>, outcomes: seq<bool>)
    ensures var r := SendAll(slots, outcomes);
      |r.msgs| <= |Pending(slots)| && r.msgs == Pending(slots)[..|r.msgs|]
    decreases |slots|
  {
    if slots != [] && IsPending(slots[0]) {
      var m := ValueMessage(slots[0].value);
      SendAllPendingUnfold(slots, outcomes);
      if Outcome(outcomes, 0) {
        SendAllPublishesPending(slots[1..], Drop(outcomes, 1));
        PrefixCons(m, SendAll(slots[1..], Drop(outcomes, 1)).msgs, Pending(slots[1..]));
      } else {
        PrefixCons(m, [], Pending(slots[1..]));
      }
    } else if slots != [] {
      SendAllPublishesPending(slots[1..], outcomes);
    }
  }

  /** One unfolding of the round and of the pending messages at a pending driver. */
  lemma SendAllPendingUnfold(slots: seq<Option<Slot>>, outcomes: seq<bool>)
    requires slots != [] && IsPending(slots[0])
    ensures var m := ValueMessage(slots[0].value);
      && Pending(slots) == [m] + Pending(slots[1..])
      && SendAll(slots, outcomes).msgs
         == if Outcome(outcomes, 0) then [m] + SendAll(slots[1..], Drop(outcomes, 1)).msgs else [m]
  {
  }

  /** A successful round publishes every pending driver's message, in slot order. */
  lemma {:induction false} SendAllPublishesAll(slots: seq<Option<Slot>>, outcomes: seq<bool>)
    requires SendAll(slots, outcomes).ok
    ensures SendAll(slots, outcomes).msgs == Pending(slots)
    decreases |slots|
  {
    if slots != [] {
      if !IsPending(slots[0]) {
        SendAllPublishesAll(slots[1..], outcomes);
      } else {
        SendAllPublishesAll(slots[1..], Drop(outcomes, 1));
      }
    }
  }

  /** A successful round had every publication delivered. */
  lemma {:induction false} SendAllSuccess(slots: seq<Option<Slot>>, outcomes: seq<bool>)
    requires SendAll(slots, outcomes).ok
    ensures forall k :: 0 <= k < |Pending(slots)| ==> Outcome(outcomes, k)
    decreases |slots|
  {
    if slots != [] {
      if !IsPending(slots[0]) {
        SendAllSuccess(slots[1..], outcomes);
      } else {
        var rest := Drop(outcomes, 1);
        SendAllSuccess(slots[1..], rest);
        forall k | 0 <= k < |Pending(slots)| ensures Outcome(outcomes, k) {
          if k > 0 { assert Outcome(rest, k - 1); }
        }
      }
    }
  }

  /** A failed round stopped at its last publication, the first one that was not delivered. */
  lemma {:induction false} SendAllFailure(slots: seq<Option<Slot>>, outcomes: seq<bool>)
    requires !SendAll(slots, outcomes).ok
    ensures var n := |SendAll(slots, outcomes).msgs|;
      !Outcome(outcomes, n - 1) && forall k :: 0 <= k < n - 1 ==> Outcome(outcomes, k)
    decreases |slots|
  {
    if !IsPending(slots[0]) {
      SendAllFailure(slots[1..], outcomes);
    } else if Outcome(outcomes, 0) {
      var rest := Drop(outcomes, 1);
      SendAllFailure(slots[1..], rest);
      var n := |SendAll(slots, outcomes).msgs|;
      forall k | 0 <= k < n - 1 ensures Outcome(outcomes, k) {
        if k > 0 { assert Outcome(rest, k - 1); }
      }
    }
  }

  /** The round succeeds exactly when every pending driver's publication is delivered. */
  lemma SendAllSucceedsIff(slots: seq<Option<Slot>>, outcomes: seq<bool>)
    ensures SendAll(slots, outcomes).ok <==> forall k :: 0 <= k < |Pending(slots)| ==> Outcome(outcomes, k)
  {
    if SendAll(slots, outcomes).ok {
      SendAllSuccess(slots, outcomes);
    } else {
      SendAllPublishesPending(slots, outcomes);
      SendAllFailure(slots, outcomes);
    }
  }

  lemma PendingPrefix(slots: seq<Option<Slot>>, i: nat)
    requires 1 <= i <= |slots|
    ensures Pending(slots[..i]) ==
      (if IsPending(slots[0]) then [ValueMessage(slots[0].value)] else []) + Pending(slots[1..][..i - 1])
  {
    assert slots[..i][1..] == slots[1..][..i - 1];
  }

  /**
   * The round resumed at slot `cur` of the whole list after the messages
   * `sent`: slots before `cur` are left as they are, and the next
   * publication has outcome number |sent|.
   */
  ghost function SendFrom(slots: seq<Option<Slot>>, cur: nat, outcomes: seq<bool>, sent: seq<Message>): SendResult
    decreases |slots| - cur
  {
    if cur >= |slots| then SendResult(true, slots, sent)
    else if !IsPending(slots[cur]) then SendFrom(slots, cur + 1, outcomes, sent)
    else if !Outcome(outcomes, |sent|) then SendResult(false, slots, sent + [ValueMessage(slots[cur].value)])
    else SendFrom(slots[cur := Some(MarkSent(slots[cur].value))], cur + 1, outcomes, sent + [ValueMessage(slots[cur].value)])
  }

  ghost predicate SendFromMatches(slots: seq<Option<Slot>>, cur: nat, outcomes: seq<bool>, sent: seq<Message>)
    requires cur <= |slots|
  {
    var r := SendAll(slots[cur..], Drop(outcomes, |sent|));
    SendFrom(slots, cur, outcomes, sent) == SendResult(r.ok, slots[..cur] + r.slots, sent + r.msgs)
  }

  /** The round resumed at `cur` is the round over the slots from `cur` on, after the untouched prefix. */
  lemma {:induction false} SendFromIsSendAll(slots: seq<Option<Slot>>, cur: nat, outcomes: seq<bool>, sent: seq<Message>)
    requires cur <= |slots|
    ensures SendFromMatches(slots, cur, outcomes, sent)
    decreases |slots| - cur, 1
  {
    if cur == |slots| {
      assert slots[..cur] == slots && sent + [] == sent;
    } else if !IsPending(slots[cur]) {
      SendFromSkip(slots, cur, outcomes, sent);
    } else if Outcome(outcomes, |sent|) {
      SendFromDeliver(slots, cur, outcomes, sent);
    } else {
      assert slots[cur..][0] == slots[cur];
      assert slots[..cur] + slots[cur..] == slots;
    }
  }

  lemma {:induction false} SendFromSkip(slots: seq<Option<Slot>>, cur: nat, outcomes: seq<bool>, sent: seq<Message>)
    requires cur < |slots| && !IsPending(slots[cur])
    ensures SendFromMatches(slots, cur, outcomes, sent)
    decreases |slots| - cur, 0
  {
    SendFromIsSendAll(slots, cur + 1, outcomes, sent);
    SendFromSkipUnfold(slots, cur, outcomes, sent);
    assert slots[..cur + 1] == slots[..cur] + [slots[cur]];
    AppendAssoc(slots[..cur], [slots[cur]], SendAll(slots[cur + 1..], Drop(outcomes, |sent|)).slots);
  }

  /** One unfolding of the round, resumed and from `cur` on, at a slot with nothing to publish. */
  lemma SendFromSkipUnfold(slots: seq<Option<Slot>>, cur: nat, outcomes: seq<bool>, sent: seq<Message>)
    requires cur < |slots| && !IsPending(slots[cur])
    ensures var r := SendAll(slots[cur + 1..], Drop(outcomes, |sent|));
      && SendAll(slots[cur..], Drop(outcomes, |sent|)) == SendResult(r.ok, [slots[cur]] + r.slots, r.msgs)
      && SendFrom(slots, cur, outcomes, sent) == SendFrom(slots, cur + 1, outcomes, sent)
  {
    assert slots[cur..][0] == slots[cur] && slots[cur..][1..] == slots[cur + 1..];
  }

  lemma {:induction false} SendFromDeliver(slots: seq<Option<Slot>>, cur: nat, outcomes: seq<bool>, sent: seq<Message>)
    requires cur < |slots| && IsPending(slots[cur]) && Outcome(outcomes, |sent|)
    ensures SendFromMatches(slots, cur, outcomes, sent)
    decreases |slots| - cur, 0
  {
    var m := ValueMessage(slots[cur].value);
    var x := Some(MarkSent(slots[cur].value));
    SendFromIsSendAll(slots[cur := x], cur + 1, outcomes, sent + [m]);
    SendFromDeliverUnfold(slots, cur, outcomes, sent);
    DropAfter(outcomes, sent, [m]);
    SendFromRegroup(slots, cur, x, sent, m, SendAll(slots[cur + 1..], Drop(Drop(outcomes, |sent|), 1)));
  }

  /** One unfolding of the round, resumed and from `cur` on, at a pending driver whose publication is delivered. */
  lemma SendFromDeliverUnfold(slots: seq<Option<Slot>>, cur: nat, outcomes: seq<bool>, sent: seq<Message>)
    requires cur < |slots| && IsPending(slots[cur]) && Outcome(outcomes, |sent|)
    ensures var m := ValueMessage(slots[cur].value);
      var x := Some(MarkSent(slots[cur].value));
      var r := SendAll(slots[cur + 1..], Drop(Drop(outcomes, |sent|), 1));
      && SendAll(slots[cur..], Drop(outcomes, |sent|)) == SendResult(r.ok, [x] + r.slots, [m] + r.msgs)
      && SendFrom(slots, cur, outcomes, sent) == SendFrom(slots[cur := x], cur + 1, outcomes, sent + [m])
  {
    assert slots[cur..][0] == slots[cur] && slots[cur..][1..] == slots[cur + 1..];
  }

  /** Marking slot `cur` and moving past it, regrouped as the prefix before `cur` followed by the rest. */
  lemma SendFromRegroup(slots: seq<Option<Slot>>, cur: nat, x: Option<Slot>, sent: seq<Message>, m: Message, r: SendResult)
    requires cur < |slots|
    ensures slots[cur := x][cur + 1..] == slots[cur + 1..]
    ensures SendResult(r.ok, slots[cur := x][..cur + 1] + r.slots, (sent + [m]) + r.msgs)
         == SendResult(r.ok, slots[..cur] + ([x] + r.slots), sent + ([m] + r.msgs))
  {
    assert slots[cur := x][..cur + 1] == slots[..cur] + [x];
    AppendAssoc(slots[..cur], [x], r.slots);
    AppendAssoc(sent, [m], r.msgs);
  }

  /** How many publications of the round were delivered. */
  function Delivered(r: SendResult): int {
    if r.ok then |r.msgs| else |r.msgs| - 1
  }

  /**
   * What the round does to slot `i`: a pending driver whose publication was
   * delivered is marked as sent; every other slot is unchanged.
   */
  lemma {:induction false} SendAllSlot(slots: seq<Option<Slot>>, outcomes: seq<bool>, i: nat)
    requires i < |slots|
    ensures var r := SendAll(slots, outcomes);
      r.slots[i] == if IsPending(slots[i]) && Rank(slots, i) < Delivered(r) then Some(MarkSent(slots[i].value)) else slots[i]
    decreases |slots|
  {
    var r := SendAll(slots, outcomes);
    if !IsPending(slots[0]) {
      if i > 0 {
        SendAllSlot(slots[1..], outcomes, i - 1);
        PendingPrefix(slots, i);
      }
    } else if Outcome(outcomes, 0) {
      var r' := SendAll(slots[1..], Drop(outcomes, 1));
      assert Delivered(r) == 1 + Delivered(r');
      if i == 0 {
        assert slots[..0] == [];
      } else {
        SendAllSlot(slots[1..], Drop(outcomes, 1), i - 1);
        PendingPrefix(slots, i);
      }
    }
  }

  // ---------------------------------------------------------------------------
  // Configuration document

  /** A JSON value as the module reads it: its string view (null when not a string) and its integer conversions. */
  datatype Json = Json(str: Option<string>, asInt: int, asUnsigned: nat)

  /** The stored configuration: the frequency, only when it differs from the default. */
  function ConfigDoc(s: Settings, freq: nat): (doc: map<string, nat>)
    ensures "frequency" in doc <==> freq != ToUint16(s.deflFreq)
    ensures "frequency" in doc ==> doc["frequency"] == freq
    ensures doc.Keys <= {"frequency"}
  {
    if freq != ToUint16(s.deflFreq) then map["frequency" := freq] else map[]
  }

  /** The frequency after applying a configuration document to a module whose frequency is `freq`. */
  function LoadedFrequency(s: Settings, doc: map<string, Json>, freq: nat): nat {
    if "frequency" in doc then Clamp(ToUint16(doc["frequency"].asUnsigned), s.minFreq, s.maxFreq) else freq
  }

  /** A stored number reads back as itself. */
  function AsJson(doc: map<string, nat>): map<string, Json> {
    map k | k in doc :: Json(None, doc[k], doc[k])
  }

  /**
   * Saving and reloading restores the frequency: a fresh module (at the
   * default frequency) that loads the saved document ends at the saved
   * frequency, whenever that frequency is in range.
   */
  lemma ConfigRoundTrip(s: Settings, freq: nat)
    requires s.minFreq <= freq <= s.maxFreq && freq < 0x1_0000
    ensures LoadedFrequency(s, AsJson(ConfigDoc(s, freq)), ToUint16(s.deflFreq)) == freq
  {
    if freq != ToUint16(s.deflFreq) {
      assert "frequency" in AsJson(ConfigDoc(s, freq));
    } else {
      assert "frequency" !in AsJson(ConfigDoc(s, freq));
    }
  }

  /** A document without the frequency key leaves the frequency alone; otherwise it lands in range. */
  lemma LoadedFrequencyInRange(s: Settings, doc: map<string, Json>, freq: nat)
    ensures "frequency" !in doc ==> LoadedFrequency(s, doc, freq) == freq
    ensures "frequency" in doc && s.minFreq <= s.maxFreq ==> s.minFreq <= LoadedFrequency(s, doc, freq) <= s.maxFreq
  {
  }

  // ---------------------------------------------------------------------------
  // Orders

  /** A call to the order processor: the order string (null when absent or not a string) and the value, if any. */
  datatype Dispatch = Dispatch(order: Option<string>, value: Option<int>)

  /** The part of the module state an order can change: the registered slots and the frequency. */
  datatype OrderState = OrderState(active: seq<Option<Slot>>, freq: nat)

  datatype OrderResult = OrderResult(ok: bool, state: OrderState, events: seq<Event>)

  predicate IsStatusOrder(o: string) { IsPrefix("status", o) }
  predicate IsAcquireOrder(o: string) { !IsStatusOrder(o) && IsPrefix("acquire", o) }
  predicate IsFrequencyOrder(o: string) { !IsStatusOrder(o) && !IsAcquireOrder(o) && IsPrefix("frequency", o) }

  /**
   * One order. "status" publishes the status; "acquire" runs a publication
   * round; "frequency" with a value sets the frequency, publishes the status
   * (whatever its outcome) and stores the configuration; every other case
   * fails without effect.
   */
  function ApplyOrder(s: Settings, st: OrderState, d: Dispatch, outcomes: seq<bool>): OrderResult {
    if d.order.None? then OrderResult(false, st, [])
    else if IsStatusOrder(d.order.value) then
      OrderResult(Outcome(outcomes, 0), st, [Publish(StatusMsg)])
    else if IsAcquireOrder(d.order.value) then
      var r := SendAll(st.active, outcomes);
      OrderResult(r.ok, st.(active := r.slots), Publications(r.msgs))
    else if IsFrequencyOrder(d.order.value) then
      if d.value.None? then OrderResult(false, st, [])
      else
        var f := Clamp(ToUint16(d.value.value), s.minFreq, s.maxFreq);
        OrderResult(Outcome(outcomes, 1), st.(freq := f), [Publish(StatusMsg), Store(ConfigDoc(s, f))])
    else OrderResult(false, st, [])
  }

  /** An order fails without any effect when it is null, unknown, or a frequency order with no value. */
  lemma OrderFailures(s: Settings, st: OrderState, d: Dispatch, outcomes: seq<bool>)
    requires || d.order.None?
             || (!IsStatusOrder(d.order.value) && !IsAcquireOrder(d.order.value) && !IsFrequencyOrder(d.order.value))
             || (IsFrequencyOrder(d.order.value) && d.value.None?)
    ensures ApplyOrder(s, st, d, outcomes) == OrderResult(false, st, [])
  {
  }

  /**
   * A frequency order with a value succeeds exactly when the configuration
   * was stored; the new frequency is the value cut to 16 bits and kept in
   * range, and the stored document reloads to it.
   */
  lemma FrequencyOrder(s: Settings, st: OrderState, order: string, v: int, outcomes: seq<bool>)
    requires IsFrequencyOrder(order) && s.minFreq <= s.maxFreq && s.maxFreq < 0x1_0000
    ensures var r := ApplyOrder(s, st, Dispatch(Some(order), Some(v)), outcomes);
      && (r.ok <==> Outcome(outcomes, 1))
      && s.minFreq <= r.state.freq <= s.maxFreq
      && (s.minFreq <= v <= s.maxFreq ==> r.state.freq == v)
      && r.state.active == st.active
      && r.events == [Publish(StatusMsg), Store(ConfigDoc(s, r.state.freq))]
      && LoadedFrequency(s, AsJson(ConfigDoc(s, r.state.freq)), ToUint16(s.deflFreq)) == r.state.freq
  {
    var f := Clamp(ToUint16(v), s.minFreq, s.maxFreq);
    ConfigRoundTrip(s, f);
  }

  /** Only an acquire order touches the slots, and it does so as one publication round. */
  lemma AcquireOrder(s: Settings, st: OrderState, order: string, value: Option<int>, outcomes: seq<bool>)
    requires IsAcquireOrder(order)
    ensures var r := ApplyOrder(s, st, Dispatch(Some(order), value), outcomes);
      var round := SendAll(st.active, outcomes);
      && r.ok == round.ok && r.state == OrderState(round.slots, st.freq)
      && r.events == Publications(round.msgs)
      && (r.ok <==> forall k :: 0 <= k < |Pending(st.active)| ==> Outcome(outcomes, k))
  {
    SendAllSucceedsIff(st.active, outcomes);
  }

  datatype OrdersResult = OrdersResult(state: OrderState, events: seq<Event>)

  /** Orders applied one after the other, each consuming the outcomes of the operations it performs. */
  function ApplyOrders(s: Settings, st: OrderState, ds: seq<Dispatch>, outcomes: seq<bool>): (r: OrdersResult)
    ensures ds == [] ==> r == OrdersResult(st, [])
    decreases |ds|
  {
    if ds == [] then OrdersResult(st, [])
    else
      var first := ApplyOrder(s, st, ds[0], outcomes);
      var rest := ApplyOrders(s, first.state, ds[1..], Drop(outcomes, |first.events|));
      OrdersResult(rest.state, first.events + rest.events)
  }

  /** A run that starts with order `d` is `d` followed by the rest of the run. */
  lemma ApplyOrdersCons(s: Settings, st: OrderState, d: Dispatch, ds: seq<Dispatch>, outcomes: seq<bool>)
    ensures var first := ApplyOrder(s, st, d, outcomes);
      var rest := ApplyOrders(s, first.state, ds, Drop(outcomes, |first.events|));
      ApplyOrders(s, st, [d] + ds, outcomes) == OrdersResult(rest.state, first.events + rest.events)
  {
    assert ([d] + ds)[0] == d && ([d] + ds)[1..] == ds;
  }

  // ---------------------------------------------------------------------------
  // Command messages

  predicate IsDestKey(key: string) { IsPrefix("dest", key) }
  predicate IsOrderKey(key: string) { !IsDestKey(key) && IsPrefix("order", key) }
  predicate IsValueKey(key: string) { !IsDestKey(key) && !IsOrderKey(key) && IsPrefix("value", key) }

  /**
   * The walk over a command's key/value pairs, carrying the current order
   * and the current value: an order key dispatches at once with the current
   * value; a value key becomes the current value and, when an order is
   * current, dispatches that order with it; other keys are skipped.
   */
  function Walk(keys: seq<(string, Json)>, order: Option<string>, value: Option<int>): seq<Dispatch>
    decreases |keys|
  {
    if keys == [] then []
    else
      var (key, v) := keys[0];
      if IsOrderKey(key) then
        [Dispatch(v.str, value)] + Walk(keys[1..], v.str, value)
      else if IsValueKey(key) then
        (if order.Some? then [Dispatch(order, Some(v.asInt))] else []) + Walk(keys[1..], order, Some(v.asInt))
      else Walk(keys[1..], order, value)
  }

  /** The orders a command dispatches, in order. */
  function Dispatches(keys: seq<(string, Json)>): seq<Dispatch> {
    Walk(keys, None, None)
  }

  /** The order string of the most recent order key (null when none, or when that value is not a string). */
  function LastOrder(keys: seq<(string, Json)>): Option<string> {
    if keys == [] then None
    else if IsOrderKey(keys[|keys| - 1].0) then keys[|keys| - 1].1.str
    else LastOrder(keys[..|keys| - 1])
  }

  /** The value of the most recent value key, if any. */
  function LastValue(keys: seq<(string, Json)>): Option<int> {
    if keys == [] then None
    else if IsValueKey(keys[|keys| - 1].0) then Some(keys[|keys| - 1].1.asInt)
    else LastValue(keys[..|keys| - 1])
  }

  /** What key `j` dispatches, judged from the keys before it. */
  function DispatchAt(keys: seq<(string, Json)>, j: nat): seq<Dispatch>
    requires j < |keys|
  {
    if IsOrderKey(keys[j].0) then [Dispatch(keys[j].1.str, LastValue(keys[..j]))]
    else if IsValueKey(keys[j].0) && LastOrder(keys[..j]).Some? then [Dispatch(LastOrder(keys[..j]), Some(keys[j].1.asInt))]
    else []
  }

  function DispatchesFrom(keys: seq<(string, Json)>, j: nat): seq<Dispatch>
    requires j <= |keys|
    decreases |keys| - j
  {
    if j == |keys| then [] else DispatchAt(keys, j) + DispatchesFrom(keys, j + 1)
  }

  lemma {:induction false} WalkFrom(keys: seq<(string, Json)>, j: nat)
    requires j <= |keys|
    ensures Walk(keys[j..], LastOrder(keys[..j]), LastValue(keys[..j])) == DispatchesFrom(keys, j)
    decreases |keys| - j
  {
    if j < |keys| {
      assert keys[j..][0] == keys[j] && keys[j..][1..] == keys[j + 1..];
      assert keys[..j + 1][..j] == keys[..j] && keys[..j + 1][j] == keys[j];
      WalkFrom(keys, j + 1);
    }
  }

  /**
   * The walk dispatches, key by key: one call per order key, with the most
   * recent value before it; one call per value key that follows an order
   * whose value is a string, with the most recent such order; nothing for
   * any other key (including every "dest" key).
   */
  lemma DispatchesKeyByKey(keys: seq<(string, Json)>)
    ensures Dispatches(keys) == DispatchesFrom(keys, 0)
  {
    assert keys[0..] == keys && keys[..0] == [];
    WalkFrom(keys, 0);
  }

  datatype HandleResult = HandleResult(dispatched: seq<Dispatch>, state: OrderState, events: seq<Event>)

  /**
   * A command message resumed at key `i`, with the current order and value,
   * the state reached, and the dispatches and outward operations so far.
   */
  ghost function HandleFrom(s: Settings, keys: seq<(string, Json)>, i: nat, order: Option<string>, value: Option<int>,
                            st: OrderState, outcomes: seq<bool>, dispatched: seq<Dispatch>, events: seq<Event>): HandleResult
    decreases |keys| - i
  {
    if i >= |keys| then HandleResult(dispatched, st, events)
    else
      var (key, v) := keys[i];
      if IsOrderKey(key) then
        var d := Dispatch(v.str, value);
        var r := ApplyOrder(s, st, d, Drop(outcomes, |events|));
        HandleFrom(s, keys, i + 1, v.str, value, r.state, outcomes, dispatched + [d], events + r.events)
      else if IsValueKey(key) && order.Some? then
        var d := Dispatch(order, Some(v.asInt));
        var r := ApplyOrder(s, st, d, Drop(outcomes, |events|));
        HandleFrom(s, keys, i + 1, order, Some(v.asInt), r.state, outcomes, dispatched + [d], events + r.events)
      else if IsValueKey(key) then
        HandleFrom(s, keys, i + 1, order, Some(v.asInt), st, outcomes, dispatched, events)
      else
        HandleFrom(s, keys, i + 1, order, value, st, outcomes, dispatched, events)
  }

  ghost predicate HandleFromMatches(s: Settings, keys: seq<(string, Json)>, i: nat, order: Option<string>, value: Option<int>,
                                    st: OrderState, outcomes: seq<bool>, dispatched: seq<Dispatch>, events: seq<Event>)
    requires i <= |keys|
  {
    var w := Walk(keys[i..], order, value);
    var r := ApplyOrders(s, st, w, Drop(outcomes, |events|));
    HandleFrom(s, keys, i, order, value, st, outcomes, dispatched, events) == HandleResult(dispatched + w, r.state, events + r.events)
  }

  /** A message resumed at key `i` dispatches the rest of the walk and applies those orders in turn. */
  lemma {:induction false} HandleFromIsWalk(s: Settings, keys: seq<(string, Json)>, i: nat, order: Option<string>, value: Option<int>,
                                            st: OrderState, outcomes: seq<bool>, dispatched: seq<Dispatch>, events: seq<Event>)
    requires i <= |keys|
    ensures HandleFromMatches(s, keys, i, order, value, st, outcomes, dispatched, events)
    decreases |keys| - i, 1
  {
    if i == |keys| {
      assert keys[i..] == [];
      assert dispatched + [] == dispatched && events + [] == events;
    } else if IsOrderKey(keys[i].0) || (IsValueKey(keys[i].0) && order.Some?) {
      HandleFromDispatch(s, keys, i, order, value, st, outcomes, dispatched, events);
    } else {
      HandleFromQuiet(s, keys, i, order, value, st, outcomes, dispatched, events);
    }
  }

  /** The step of HandleFromIsWalk for a key that dispatches: an order key, or a value key that follows an order. */
  lemma {:induction false} HandleFromDispatch(s: Settings, keys: seq<(string, Json)>, i: nat, order: Option<string>, value: Option<int>,
                                              st: OrderState, outcomes: seq<bool>, dispatched: seq<Dispatch>, events: seq<Event>)
    requires i < |keys| && (IsOrderKey(keys[i].0) || (IsValueKey(keys[i].0) && order.Some?))
    ensures HandleFromMatches(s, keys, i, order, value, st, outcomes, dispatched, events)
    decreases |keys| - i, 0
  {
    var order' := if IsOrderKey(keys[i].0) then keys[i].1.str else order;
    var value' := if IsOrderKey(keys[i].0) then value else Some(keys[i].1.asInt);
    var d := Dispatch(order', value');
    var o := Drop(outcomes, |events|);
    var r := ApplyOrder(s, st, d, o);
    var w := Walk(keys[i + 1..], order', value');
    HandleFromIsWalk(s, keys, i + 1, order', value', r.state, outcomes, dispatched + [d], events + r.events);
    HandleFromDispatchUnfold(s, keys, i, order, value, st, outcomes, dispatched, events);
    DropAfter(outcomes, events, r.events);
    DispatchStep(s, st, d, w, o, dispatched, events, r, ApplyOrders(s, r.state, w, Drop(o, |r.events|)));
  }

  /** One unfolding of the walk and of the message handling at a key that dispatches. */
  lemma HandleFromDispatchUnfold(s: Settings, keys: seq<(string, Json)>, i: nat, order: Option<string>, value: Option<int>,
                                 st: OrderState, outcomes: seq<bool>, dispatched: seq<Dispatch>, events: seq<Event>)
    requires i < |keys| && (IsOrderKey(keys[i].0) || (IsValueKey(keys[i].0) && order.Some?))
    ensures var order' := if IsOrderKey(keys[i].0) then keys[i].1.str else order;
      var value' := if IsOrderKey(keys[i].0) then value else Some(keys[i].1.asInt);
      var d := Dispatch(order', value');
      var r := ApplyOrder(s, st, d, Drop(outcomes, |events|));
      && Walk(keys[i..], order, value) == [d] + Walk(keys[i + 1..], order', value')
      && HandleFrom(s, keys, i, order, value, st, outcomes, dispatched, events)
         == HandleFrom(s, keys, i + 1, order', value', r.state, outcomes, dispatched + [d], events + r.events)
  {
    assert keys[i..][0] == keys[i] && keys[i..][1..] == keys[i + 1..];
  }

  /** The step of HandleFromIsWalk for a key that dispatches nothing. */
  lemma {:induction false} HandleFromQuiet(s: Settings, keys: seq<(string, Json)>, i: nat, order: Option<string>, value: Option<int>,
                                           st: OrderState, outcomes: seq<bool>, dispatched: seq<Dispatch>, events: seq<Event>)
    requires i < |keys| && !IsOrderKey(keys[i].0) && !(IsValueKey(keys[i].0) && order.Some?)
    ensures HandleFromMatches(s, keys, i, order, value, st, outcomes, dispatched, events)
    decreases |keys| - i, 0
  {
    var value' := if IsValueKey(keys[i].0) then Some(keys[i].1.asInt) else value;
    HandleFromIsWalk(s, keys, i + 1, order, value', st, outcomes, dispatched, events);
    HandleFromQuietUnfold(s, keys, i, order, value, st, outcomes, dispatched, events);
  }

  /** One unfolding of the walk and of the message handling at a key that dispatches nothing. */
  lemma HandleFromQuietUnfold(s: Settings, keys: seq<(string, Json)>, i: nat, order: Option<string>, value: Option<int>,
                              st: OrderState, outcomes: seq<bool>, dispatched: seq<Dispatch>, events: seq<Event>)
    requires i < |keys| && !IsOrderKey(keys[i].0) && !(IsValueKey(keys[i].0) && order.Some?)
    ensures var value' := if IsValueKey(keys[i].0) then Some(keys[i].1.asInt) else value;
      && Walk(keys[i..], order, value) == Walk(keys[i + 1..], order, value')
      && HandleFrom(s, keys, i, order, value, st, outcomes, dispatched, events)
         == HandleFrom(s, keys, i + 1, order, value', st, outcomes, dispatched, events)
  {
    assert keys[i..][0] == keys[i] && keys[i..][1..] == keys[i + 1..];
  }

  /** The outcomes left after two runs of operations. */
  lemma DropAfter<T>(outcomes: seq<bool>, events: seq<T>, more: seq<T>)
    ensures Drop(outcomes, |events + more|) == Drop(Drop(outcomes, |events|), |more|)
  {
    DropDrop(outcomes, |events|, |more|);
  }

  /** One dispatch followed by the rest of the walk, regrouped as a run of orders. */
  lemma DispatchStep(s: Settings, st: OrderState, d: Dispatch, w: seq<Dispatch>, o: seq<bool>,
                     dispatched: seq<Dispatch>, events: seq<Event>, r: OrderResult, rest: OrdersResult)
    requires r == ApplyOrder(s, st, d, o)
    requires rest == ApplyOrders(s, r.state, w, Drop(o, |r.events|))
    ensures var all := ApplyOrders(s, st, [d] + w, o);
      HandleResult((dispatched + [d]) + w, rest.state, (events + r.events) + rest.events)
      == HandleResult(dispatched + ([d] + w), all.state, events + all.events)
  {
    ApplyOrdersCons(s, st, d, w, o);
    AppendAssoc(dispatched, [d], w);
    AppendAssoc(events, r.events, rest.events);
  }
}
