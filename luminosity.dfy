/*
 * The luminosity module manager: a fixed-capacity array of sensor slots,
 * filled in order as drivers register, processed every loop, published
 * when their drivers trigger, and steered by command messages (status,
 * acquire, frequency) and a stored configuration.
 *
 * Each method is proved against the value-level specification in
 * luminosity_spec.dfy. Publications, configuration writes and the drivers'
 * probing and processing are inputs: `outcomes` lists the results of the
 * successive outward operations, and `readings` what each driver's
 * process() left observable.
 */
module Luminosity {
  import opened LuminositySpec

  class LuminosityModule {
    const settings: Settings
    /** The sensor slots; the first `sensorsCount` of them are the registered ones. */
    const sensors: array<Option<Slot>>
    var sensorsCount: nat
    /** The cooldown, in seconds, handed to every driver's processing. */
    var freq: nat
    /** Module-level trigger: some driver has fresh data. */
    var trigger: bool
    /** The shared JSON object: the latest value of each sub-identifier. */
    var shared: map<nat, real>

    predicate Valid()
      reads this
    {
      sensors.Length == settings.maxSensors && sensorsCount <= sensors.Length
    }

    /** Registered slots hold a driver and the others are empty. */
    predicate Packed()
      reads this, sensors
    {
      forall i :: 0 <= i < sensors.Length ==> (sensors[i].Some? <==> i < sensorsCount)
    }

    /** The registered slots. */
    function Active(): seq<Option<Slot>>
      reads this, sensors
      requires Valid()
    {
      sensors[..sensorsCount]
    }

    /** A new module: every slot empty, default frequency, then the stored configuration (if any) applied. */
    constructor (settings: Settings, configFile: Option<map<string, Json>>)
      ensures Valid() && Packed() && fresh(sensors)
      ensures this.settings == settings && sensorsCount == 0
      ensures forall i :: 0 <= i < sensors.Length ==> sensors[i].None?
      ensures freq == if configFile.Some? then LoadedFrequency(settings, configFile.value, ToUint16(settings.deflFreq))
                      else ToUint16(settings.deflFreq)
      ensures !trigger && shared == map[]
    {
      this.settings := settings;
      sensors := new Option<Slot>[settings.maxSensors];
      sensorsCount := 0;
      freq := ToUint16(settings.deflFreq);
      trigger := false;
      shared := map[];
      new;
      var i := 0;
      while i < sensors.Length
        modifies sensors
        invariant 0 <= i <= sensors.Length
        invariant forall j :: 0 <= j < i ==> sensors[j].None?
      {
        sensors[i] := None;
        i := i + 1;
      }
      var _ := LoadConfig(configFile);
    }

    /** Releasing the module: every registered slot is emptied and the count returns to zero. */
    method Destroy()
      requires Valid()
      modifies this, sensors
      ensures Valid() && sensorsCount == 0
      ensures forall i :: 0 <= i < old(sensorsCount) ==> sensors[i].None?
      ensures forall i :: old(sensorsCount) <= i < sensors.Length ==> sensors[i] == old(sensors[i])
      ensures old(Packed()) ==> Packed()
      ensures freq == old(freq) && trigger == old(trigger) && shared == old(shared)
    {
      var i := 0;
      while i < sensorsCount
        modifies sensors
        invariant 0 <= i <= sensorsCount
        invariant forall j :: 0 <= j < i ==> sensors[j].None?
        invariant forall j :: i <= j < sensors.Length ==> sensors[j] == old(sensors[j])
      {
        if sensors[i].None? {
          i := i + 1;
          continue;
        }
        sensors[i] := None;
        i := i + 1;
      }
      sensorsCount := 0;
    }

    /**
     * Registering the device at `adr`. The TSL2561 probe is tried first and
     * the MAX44009 probe only when it fails; a recognised device that starts
     * is powered off and stored in the next free slot.
     */
    method AddSensor(adr: nat, tslIsDevice: bool, tslBegins: bool, maxIsDevice: bool, maxBegins: bool) returns (added: bool)
      requires Valid()
      modifies this, sensors
      ensures Valid()
      ensures added <==>
        old(sensorsCount) < settings.maxSensors && ((tslIsDevice && tslBegins) || (!tslIsDevice && maxIsDevice && maxBegins))
      ensures added ==>
        && sensorsCount == old(sensorsCount) + 1
        && sensors[old(sensorsCount)] == Some(NewSlot(if tslIsDevice then Tsl2561Chip else Max44009Chip, adr))
        && forall i :: 0 <= i < sensors.Length && i != old(sensorsCount) ==> sensors[i] == old(sensors[i])
      ensures !added ==> sensorsCount == old(sensorsCount) && sensors[..] == old(sensors[..])
      ensures old(Packed()) ==> Packed()
      ensures freq == old(freq) && trigger == old(trigger) && shared == old(shared)
    {
      if sensorsCount >= settings.maxSensors {
        return false;
      }
      added := false;
      if tslIsDevice {
        if tslBegins {
          sensors[sensorsCount] := Some(NewSlot(Tsl2561Chip, adr));
          sensorsCount := sensorsCount + 1;
          added := true;
        }
      } else if maxIsDevice {
        if maxBegins {
          sensors[sensorsCount] := Some(NewSlot(Max44009Chip, adr));
          sensorsCount := sensorsCount + 1;
          added := true;
        }
      }
    }

    /** True exactly when no sensor is registered. */
    function IsEmpty(): (r: bool)
      reads this
      ensures r <==> sensorsCount == 0
    {
      sensorsCount == 0
    }

    /** With the slots packed, an empty module is one whose every slot is empty. */
    lemma EmptyIffNoSlot()
      requires Valid() && Packed()
      ensures IsEmpty() <==> forall i :: 0 <= i < sensors.Length ==> sensors[i].None?
    {
      if !IsEmpty() {
        assert sensors[0].Some?;
      }
    }

    /** The frequency setter: the requested value kept within the module's range. */
    method SetFrequency(v: nat)
      modifies this
      ensures freq == Clamp(v, settings.minFreq, settings.maxFreq)
      ensures sensorsCount == old(sensorsCount) && trigger == old(trigger) && shared == old(shared)
    {
      if v < settings.minFreq {
        freq := settings.minFreq;
      } else if v > settings.maxFreq {
        freq := settings.maxFreq;
      } else {
        freq := v;
      }
    }

    /** Applying a configuration document: only its frequency field is read. */
    method LoadConfigDoc(doc: map<string, Json>) returns (ok: bool)
      modifies this
      ensures ok
      ensures freq == LoadedFrequency(settings, doc, old(freq))
      ensures sensorsCount == old(sensorsCount) && trigger == old(trigger) && shared == old(shared)
    {
      if "frequency" in doc {
        SetFrequency(ToUint16(doc["frequency"].asUnsigned));
      }
      return true;
    }

    /** Loading the stored configuration; `file` is None when it is missing, unreadable or not valid JSON. */
    method LoadConfig(file: Option<map<string, Json>>) returns (ok: bool)
      modifies this
      ensures ok <==> file.Some?
      ensures freq == if file.Some? then LoadedFrequency(settings, file.value, old(freq)) else old(freq)
      ensures sensorsCount == old(sensorsCount) && trigger == old(trigger) && shared == old(shared)
    {
      if file.None? {
        return false;
      }
      ok := LoadConfigDoc(file.value);
    }

    /** Saving the configuration: the document written, and whether storage accepted it. */
    method SaveConfig(stored: bool) returns (ok: bool, doc: map<string, nat>)
      ensures doc == ConfigDoc(settings, freq) && ok == stored
    {
      doc := map[];
      if freq != ToUint16(settings.deflFreq) {
        doc := doc["frequency" := freq];
      }
      ok := stored;
    }

    /** One turn of the scan: the driver in slot `cur`, if any, processes; if it triggers, the module trigger is raised and its value shared. */
    method ProcessSlot(cur: nat, readings: seq<Reading>)
      requires Valid() && cur < sensorsCount
      modifies this, sensors
      ensures Valid() && sensorsCount == old(sensorsCount) && freq == old(freq)
      ensures Active() == old(Active())[cur := TickSlot(old(sensors[cur]), readings, cur)]
      ensures sensors[sensorsCount..] == old(sensors[sensorsCount..])
      ensures trigger == (old(trigger) || IsPending(sensors[cur]))
      ensures shared == Record(sensors[cur], old(shared))
    {
      if sensors[cur].None? {
        return;
      }
      var d := Tick(sensors[cur].value, readings, cur);
      sensors[cur] := Some(d);
      if !d.trigger {
        return;
      }
      trigger := true;
      shared := shared[d.addr := d.value];
    }

    /** One scan: every registered driver processes; those that trigger raise the module trigger and update the shared map. */
    method ProcessSensors(readings: seq<Reading>)
      requires Valid()
      modifies this, sensors
      ensures Valid() && sensorsCount == old(sensorsCount) && freq == old(freq)
      ensures var r := Scan(old(Active()), readings, 0, old(trigger), old(shared));
        Active() == r.slots && trigger == r.trigger && shared == r.shared
      ensures sensors[sensorsCount..] == old(sensors[sensorsCount..])
    {
      ghost var goal := Scan(Active(), readings, 0, trigger, shared);
      ScanFromIsScan(Active(), 0, readings, trigger, shared);
      assert Active()[..0] == [] && Active()[0..] == Active();
      var cur := 0;
      while cur < sensorsCount
        invariant Valid() && sensorsCount == old(sensorsCount) && freq == old(freq)
        invariant 0 <= cur <= sensorsCount
        invariant sensors[sensorsCount..] == old(sensors[sensorsCount..])
        invariant ScanFrom(Active(), cur, readings, trigger, shared) == goal
      {
        ProcessSlot(cur, readings);
        cur := cur + 1;
      }
    }

    /**
     * One turn of the round at slot `cur`: a driver holding data publishes
     * (with outcome `delivered`) and, once delivered, is marked as sent.
     */
    method SendSlot(cur: nat, delivered: bool) returns (msg: Option<Message>)
      requires Valid() && cur < sensorsCount
      modifies sensors
      ensures msg == if IsPending(old(sensors[cur])) then Some(ValueMessage(old(sensors[cur]).value)) else None
      ensures Active() == if msg.Some? && delivered then old(Active())[cur := Some(MarkSent(old(sensors[cur]).value))] else old(Active())
      ensures sensors[sensorsCount..] == old(sensors[sensorsCount..])
    {
      if !IsPending(sensors[cur]) {
        return None;
      }
      var s := sensors[cur].value;
      msg := Some(ValueMessage(s));
      if !delivered {
        return;
      }
      sensors[cur] := Some(MarkSent(s));
    }

    /**
     * One publication round over the registered slots, in slot order: each
     * triggered driver publishes its value truncated to an integer and is
     * marked as sent; the round stops at the first failed publication.
     */
    method SendValues(outcomes: seq<bool>) returns (ok: bool, msgs: seq<Message>)
      requires Valid()
      modifies sensors
      ensures var r := SendAll(old(Active()), outcomes);
        ok == r.ok && msgs == r.msgs && Active() == r.slots
      ensures sensors[sensorsCount..] == old(sensors[sensorsCount..])
    {
      ghost var goal := SendAll(Active(), outcomes);
      SendFromIsSendAll(Active(), 0, outcomes, []);
      assert Active()[..0] == [] && Active()[0..] == Active();
      msgs := [];
      var cur := 0;
      while cur < sensorsCount
        invariant 0 <= cur <= sensorsCount
        invariant sensors[sensorsCount..] == old(sensors[sensorsCount..])
        invariant SendFrom(Active(), cur, outcomes, msgs) == goal
      {
        var delivered := Outcome(outcomes, |msgs|);
        var msg := SendSlot(cur, delivered);
        if msg.Some? {
          msgs := msgs + [msg.value];
          if !delivered {
            return false, msgs;
          }
        }
        cur := cur + 1;
      }
      return true, msgs;
    }

    /**
     * The module's periodic processing: the base processing (whose result is
     * `baseOk`), then a scan; nothing is published while the module trigger
     * is down, a raised trigger with no sensor is a failure, and otherwise a
     * publication round runs. The base processing is taken to change nothing
     * in the module: a message it receives is handled by `HandleMsg`.
     */
    method Process(baseOk: bool, readings: seq<Reading>, outcomes: seq<bool>) returns (ok: bool, msgs: seq<Message>)
      requires Valid()
      modifies this, sensors
      ensures Valid() && sensorsCount == old(sensorsCount) && freq == old(freq)
      ensures var scan := Scan(old(Active()), readings, 0, old(trigger), old(shared));
        && trigger == scan.trigger && shared == scan.shared
        && (!scan.trigger ==> ok == baseOk && msgs == [] && Active() == scan.slots)
        && (scan.trigger && sensorsCount == 0 ==> !ok && msgs == [])
        && (scan.trigger && sensorsCount > 0 ==>
              var round := SendAll(scan.slots, outcomes);
              ok == round.ok && msgs == round.msgs && Active() == round.slots)
      ensures sensors[sensorsCount..] == old(sensors[sensorsCount..])
    {
      ok := baseOk;
      msgs := [];
      ProcessSensors(readings);
      if !trigger {
        return;
      }
      if sensorsCount == 0 {
        return false, [];
      }
      ok, msgs := SendValues(outcomes);
    }

    /**
     * One order from a command message. `order` is None when the order is
     * null; `value` is None when no value came with it.
     */
    method ProcessOrder(order: Option<string>, value: Option<int>, outcomes: seq<bool>) returns (ok: bool, events: seq<Event>)
      requires Valid()
      modifies this, sensors
      ensures Valid() && sensorsCount == old(sensorsCount) && trigger == old(trigger) && shared == old(shared)
      ensures var r := ApplyOrder(settings, OrderState(old(Active()), old(freq)), Dispatch(order, value), outcomes);
        ok == r.ok && events == r.events && Active() == r.state.active && freq == r.state.freq
      ensures sensors[sensorsCount..] == old(sensors[sensorsCount..])
    {
      if order.None? {
        return false, [];
      }
      if IsPrefix("status", order.value) {
        return Outcome(outcomes, 0), [Publish(StatusMsg)];
      }
      if IsPrefix("acquire", order.value) {
        var msgs;
        ok, msgs := SendValues(outcomes);
        return ok, Publications(msgs);
      }
      if IsPrefix("frequency", order.value) {
        if value.None? {
          return false, [];
        }
        SetFrequency(ToUint16(value.value));
        // the status publication's own outcome, Outcome(outcomes, 0), is ignored
        var doc;
        ok, doc := SaveConfig(Outcome(outcomes, 1));
        return ok, [Publish(StatusMsg), Store(doc)];
      }
      return false, [];
    }

    /**
     * A command message: its key/value pairs in order. Keys starting with
     * "dest" are skipped; an "order" key dispatches its order with the
     * current value (if one was seen); a "value" key becomes the current
     * value and re-dispatches the current order (if any); other keys are
     * ignored.
     */
    method HandleMsg(keys: seq<(string, Json)>, outcomes: seq<bool>) returns (dispatched: seq<Dispatch>, events: seq<Event>)
      requires Valid()
      modifies this, sensors
      ensures Valid() && sensorsCount == old(sensorsCount) && trigger == old(trigger) && shared == old(shared)
      ensures dispatched == Dispatches(keys)
      ensures var r := ApplyOrders(settings, OrderState(old(Active()), old(freq)), dispatched, outcomes);
        Active() == r.state.active && freq == r.state.freq && events == r.events
      ensures sensors[sensorsCount..] == old(sensors[sensorsCount..])
    {
      var order: Option<string> := None;
      var value: int := 0;
      var valid := false;
      ghost var goal := HandleFrom(settings, keys, 0, None, None, OrderState(Active(), freq), outcomes, [], []);
      HandleFromIsWalk(settings, keys, 0, None, None, OrderState(Active(), freq), outcomes, [], []);
      assert keys[0..] == keys;
      dispatched, events := [], [];
      var i := 0;
      while i < |keys|
        invariant 0 <= i <= |keys|
        invariant Valid() && sensorsCount == old(sensorsCount) && trigger == old(trigger) && shared == old(shared)
        invariant sensors[sensorsCount..] == old(sensors[sensorsCount..])
        invariant HandleFrom(settings, keys, i, order, if valid then Some(value) else None, OrderState(Active(), freq),
                             outcomes, dispatched, events) == goal
      {
        var (key, v) := keys[i];
        if IsPrefix("dest", key) {
          HandleFromQuietUnfold(settings, keys, i, order, if valid then Some(value) else None, OrderState(Active(), freq), outcomes, dispatched, events);
          i := i + 1;
          continue;
        }
        if IsPrefix("order", key) {
          HandleFromDispatchUnfold(settings, keys, i, order, if valid then Some(value) else None, OrderState(Active(), freq), outcomes, dispatched, events);
          order := v.str;
          var d := Dispatch(order, if valid then Some(value) else None);
          var _, ev := ProcessOrder(d.order, d.value, Drop(outcomes, |events|));
          dispatched, events := dispatched + [d], events + ev;
          i := i + 1;
          continue;
        }
        if IsPrefix("value", key) {
          if order.Some? {
            HandleFromDispatchUnfold(settings, keys, i, order, if valid then Some(value) else None, OrderState(Active(), freq), outcomes, dispatched, events);
          } else {
            HandleFromQuietUnfold(settings, keys, i, order, if valid then Some(value) else None, OrderState(Active(), freq), outcomes, dispatched, events);
          }
          value := v.asInt;
          valid := true;
          if order.Some? {
            var d := Dispatch(order, Some(value));
            var _, ev := ProcessOrder(d.order, d.value, Drop(outcomes, |events|));
            dispatched, events := dispatched + [d], events + ev;
          }
          i := i + 1;
          continue;
        }
        HandleFromQuietUnfold(settings, keys, i, order, if valid then Some(value) else None, OrderState(Active(), freq), outcomes, dispatched, events);
        i := i + 1;
      }
      assert [] + Dispatches(keys) == Dispatches(keys);
    }
  }
}
