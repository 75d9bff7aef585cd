/**
 * The tracker: session parameters edited through the alias table, and the
 * assembly of one hit by `send` — hit type check, queue time, positional
 * slots, dict arguments, session fill and the final resolve-and-drop pass —
 * before it is handed to the transport.
 */
module Tracking {
  import opened Python
  import opened Aliases
  import opened Requests

  /** Tracker.valid_hittypes */
  const ValidHitTypes: seq<string> :=
    ["pageview", "event", "social", "screenview", "transaction", "item", "exception", "timing"]

  // ---------------------------------------------------------------------------
  // Positional options (consume_options).
  // ---------------------------------------------------------------------------

  /** The two expected types of Tracker.option_sequence. */
  datatype PyType = StrType | IntType

  /** isinstance(v, expected) */
  predicate IsInstance(v: Value, expected: PyType) {
    match expected
    case StrType => IsStr(v)
    case IntType => IsInt(v)
  }

  /** One (expected_type, optname) entry of an option sequence. */
  datatype Slot = Slot(expected: PyType, code: string)

  /** Tracker.option_sequence; hit types without an entry take no positional options. */
  function OptionSequence(hittype: string): seq<Slot> {
    match hittype
    case "pageview" => [Slot(StrType, "dp")]
    case "event" => [Slot(StrType, "ec"), Slot(StrType, "ea"), Slot(StrType, "el"), Slot(IntType, "ev")]
    case "social" => [Slot(StrType, "sn"), Slot(StrType, "sa"), Slot(StrType, "st")]
    case "timing" => [Slot(StrType, "utc"), Slot(StrType, "utv"), Slot(StrType, "utt"), Slot(StrType, "utl")]
    case _ => []
  }

  predicate DistinctCodes(slots: seq<Slot>) {
    forall i, j :: 0 <= i < j < |slots| ==> slots[i].code != slots[j].code
  }

  /** No option sequence names a code twice, and none of them names "t". */
  lemma OptionSequenceWellFormed(hittype: string)
    ensures DistinctCodes(OptionSequence(hittype))
    ensures forall i :: 0 <= i < |OptionSequence(hittype)| ==> OptionSequence(hittype)[i].code != "t"
  {
  }

  /** The slots [0, |slots|) applied in order, slot j reading argument j. */
  function Consumed(data: Dict, slots: seq<Slot>, args: seq<Value>): Dict
    decreases |slots|
  {
    if slots == [] then data
    else
      var j := |slots| - 1;
      var d := Consumed(data, slots[..j], args);
      if j < |args| && IsInstance(args[j], slots[j].expected) then Put(d, slots[j].code, args[j]) else d
  }

  /** What consume_options leaves in data. */
  function ConsumedOptions(data: Dict, hittype: string, args: seq<Value>): Dict {
    Consumed(Put(data, "t", Str(hittype)), OptionSequence(hittype), args)
  }

  /**
   * Slot j takes argument j when it has the expected type and otherwise leaves
   * its code as it was: a mismatched argument is dropped and the later slots
   * are not shifted. Codes of no slot are untouched.
   */
  lemma {:induction false} ConsumedSlots(data: Dict, slots: seq<Slot>, args: seq<Value>)
    requires DistinctCodes(slots)
    ensures forall j :: 0 <= j < |slots| ==>
      Get(Consumed(data, slots, args), slots[j].code) ==
        if j < |args| && IsInstance(args[j], slots[j].expected) then Some(args[j]) else Get(data, slots[j].code)
    ensures forall k :: (forall j :: 0 <= j < |slots| ==> slots[j].code != k) ==>
      Get(Consumed(data, slots, args), k) == Get(data, k)
    decreases |slots|
  {
    if slots != [] {
      var n := |slots| - 1;
      var prefix := slots[..n];
      assert DistinctCodes(prefix) by {
        forall i, j | 0 <= i < j < n ensures prefix[i].code != prefix[j].code {
          assert prefix[i] == slots[i] && prefix[j] == slots[j];
        }
      }
      ConsumedSlots(data, prefix, args);
      var d := Consumed(data, prefix, args);
      var r := Consumed(data, slots, args);
      assert r == if n < |args| && IsInstance(args[n], slots[n].expected) then Put(d, slots[n].code, args[n]) else d;
      forall j | 0 <= j < |slots|
        ensures Get(r, slots[j].code) ==
          if j < |args| && IsInstance(args[j], slots[j].expected) then Some(args[j]) else Get(data, slots[j].code)
      {
        if j < n {
          assert prefix[j] == slots[j] && slots[j].code != slots[n].code;
        }
      }
      forall k | forall j :: 0 <= j < |slots| ==> slots[j].code != k
        ensures Get(r, k) == Get(data, k)
      {
        assert slots[n].code != k;
        forall j | 0 <= j < n ensures prefix[j].code != k {
          assert prefix[j] == slots[j];
        }
      }
    }
  }

  /**
   * consume_options always records the hit type under "t"; every slot of the
   * hit type's sequence takes the argument at its own position or nothing;
   * every other key keeps its value.
   */
  lemma ConsumeOptionsSpec(data: Dict, hittype: string, args: seq<Value>)
    ensures Get(ConsumedOptions(data, hittype, args), "t") == Some(Str(hittype))
    ensures var slots := OptionSequence(hittype);
      forall j :: 0 <= j < |slots| ==>
        Get(ConsumedOptions(data, hittype, args), slots[j].code) ==
          if j < |args| && IsInstance(args[j], slots[j].expected) then Some(args[j]) else Get(data, slots[j].code)
    ensures var slots := OptionSequence(hittype);
      forall k :: k != "t" && (forall j :: 0 <= j < |slots| ==> slots[j].code != k) ==>
        Get(ConsumedOptions(data, hittype, args), k) == Get(data, k)
  {
    OptionSequenceWellFormed(hittype);
    ConsumedSlots(Put(data, "t", Str(hittype)), OptionSequence(hittype), args);
  }

  /** Tracker.consume_options, on the caller's data dict. */
  method ConsumeOptions(data: Dict, hittype: string, args: seq<Value>) returns (r: Dict)
    ensures r == ConsumedOptions(data, hittype, args)
  {
    var optPosition := 0;
    r := Put(data, "t", Str(hittype));
    var slots := OptionSequence(hittype);
    for i := 0 to |slots|
      invariant optPosition == i
      invariant r == Consumed(Put(data, "t", Str(hittype)), slots[..i], args)
    {
      assert slots[..i + 1][..i] == slots[..i];
      if optPosition < |args| && IsInstance(args[optPosition], slots[i].expected) {
        r := Put(r, slots[i].code, args[optPosition]);
      }
      optPosition := optPosition + 1;
    }
    assert slots[..|slots|] == slots;
  }

  /** Slot j of the hit type's sequence, on its own. */
  lemma ConsumedSlot(data: Dict, hittype: string, args: seq<Value>, j: nat)
    requires j < |OptionSequence(hittype)|
    ensures var slot := OptionSequence(hittype)[j];
      Get(ConsumedOptions(data, hittype, args), slot.code) ==
        if j < |args| && IsInstance(args[j], slot.expected) then Some(args[j]) else Get(data, slot.code)
  {
    ConsumeOptionsSpec(data, hittype, args);
  }

  /** The timing sequence expects a str time: an int passed positionally is dropped. */
  lemma TimingDropsIntTime(data: Dict, category: string, variable: string, time: int)
    ensures var r := ConsumedOptions(data, "timing", [Str(category), Str(variable), Int(time)]);
      Get(r, "utc") == Some(Str(category)) && Get(r, "utv") == Some(Str(variable)) && Get(r, "utt") == Get(data, "utt")
  {
    var args := [Str(category), Str(variable), Int(time)];
    assert IsInstance(args[0], StrType) && IsInstance(args[1], StrType) && !IsInstance(args[2], StrType);
    ConsumedSlot(data, "timing", args, 0);
    ConsumedSlot(data, "timing", args, 1);
    ConsumedSlot(data, "timing", args, 2);
  }

  // ---------------------------------------------------------------------------
  // Queue time (hittime, set_timestamp).
  // ---------------------------------------------------------------------------

  /** `milliseconds or 0` */
  function MillisOrZero(milliseconds: Option<int>): int {
    milliseconds.GetOr(0)
  }

  /**
   * Tracker.hittime as written. `now` stands for time.time(). A numeric
   * timestamp reaches from_unix with milliseconds=None, whose `None * .001`
   * raises TypeError.
   */
  function HittimeAsWritten(timestamp: Value, age: Value, milliseconds: Option<int>, now: real): Result<Value>
  {
    if IsNumber(timestamp) then
      if milliseconds.None? then Err(TypeError)
      else Ok(Int(Truncate((now - (NumberOf(timestamp) + milliseconds.value as real * 0.001)) * 1000.0)))
    else if timestamp.DateTime? then Ok(Int(Truncate((now - timestamp.stamp) * 1000.0)))
    else if IsNumber(age) then Ok(Int(Truncate(NumberOf(age) * 1000.0) + MillisOrZero(milliseconds)))
    else Ok(NoneVal)
  }

  /** Tracker.hittime with the timestamp branch passing `milliseconds or 0` on to from_unix. */
  function Hittime(timestamp: Value, age: Value, milliseconds: Option<int>, now: real): (r: Value)
    ensures r == NoneVal || r.Int?
    ensures !IsNumber(timestamp) ==> Ok(r) == HittimeAsWritten(timestamp, age, milliseconds, now)
    ensures milliseconds.Some? ==> Ok(r) == HittimeAsWritten(timestamp, age, milliseconds, now)
  {
    if IsNumber(timestamp) then
      Int(Truncate((now - (NumberOf(timestamp) + MillisOrZero(milliseconds) as real * 0.001)) * 1000.0))
    else if timestamp.DateTime? then Int(Truncate((now - timestamp.stamp) * 1000.0))
    else if IsNumber(age) then Int(Truncate(NumberOf(age) * 1000.0) + MillisOrZero(milliseconds))
    else NoneVal
  }

  /** As written, every numeric timestamp that set_timestamp hands to hittime raises TypeError. */
  lemma HittimeNumericTimestampRaises(timestamp: Value, now: real)
    requires IsNumber(timestamp)
    ensures HittimeAsWritten(timestamp, NoneVal, None, now) == Err(TypeError)
  {
  }

  /**
   * A hit stamped a seconds before now gets the same queue time whether it is
   * given as a Unix timestamp, as a datetime or as an age.
   */
  lemma TimestampAgreesWithAge(a: real, now: real)
    ensures Hittime(Float(now - a), NoneVal, None, now) == Hittime(NoneVal, Float(a), None, now)
    ensures Hittime(DateTime(now - a), NoneVal, None, now) == Hittime(NoneVal, Float(a), None, now)
    ensures Hittime(NoneVal, Float(a), None, now) == Int(Truncate(a * 1000.0))
  {
    assert (now - (now - a + 0 as real * 0.001)) * 1000.0 == a * 1000.0;
    assert (now - (now - a)) * 1000.0 == a * 1000.0;
  }

  /** data after set_timestamp: hittime, then hitage, each popped and turned into qt. */
  function Timestamped(data: Dict, now: real): Dict {
    var stamped :=
      if HasKey(data, "hittime") then Put(Remove(data, "hittime"), "qt", Hittime(Get(data, "hittime").value, NoneVal, None, now))
      else data;
    if HasKey(stamped, "hitage") then Put(Remove(stamped, "hitage"), "qt", Hittime(NoneVal, Get(stamped, "hitage").value, None, now))
    else stamped
  }

  /** data['qt'] = f(data.pop(key)): key is gone, qt is set, nothing else changes. */
  lemma PopIntoQt(d: Dict, key: string, v: Value)
    requires key != "qt"
    ensures !HasKey(Put(Remove(d, key), "qt", v), key)
    ensures Get(Put(Remove(d, key), "qt", v), "qt") == Some(v)
    ensures forall k :: k != "qt" && k != key ==> Get(Put(Remove(d, key), "qt", v), k) == Get(d, k)
    ensures forall k :: k != "qt" && k != key ==> HasKey(Put(Remove(d, key), "qt", v), k) == HasKey(d, k)
  {
    var removed := Remove(d, key);
    var r := Put(removed, "qt", v);
    assert Get(r, key) == Get(removed, key) == None;
    forall k | k != "qt" && k != key ensures Get(r, k) == Get(d, k) && HasKey(r, k) == HasKey(d, k) {
      assert Get(r, k) == Get(removed, k);
    }
  }

  /**
   * set_timestamp removes both hittime and hitage; qt comes from hitage when
   * it is given (it is processed second), else from hittime, else is left as
   * it was; no other key changes.
   */
  lemma TimestampedSpec(data: Dict, now: real)
    ensures !HasKey(Timestamped(data, now), "hittime") && !HasKey(Timestamped(data, now), "hitage")
    ensures Get(Timestamped(data, now), "qt") ==
      if HasKey(data, "hitage") then Some(Hittime(NoneVal, Get(data, "hitage").value, None, now))
      else if HasKey(data, "hittime") then Some(Hittime(Get(data, "hittime").value, NoneVal, None, now))
      else Get(data, "qt")
    ensures forall k :: k != "qt" && k != "hittime" && k != "hitage" ==> Get(Timestamped(data, now), k) == Get(data, k)
  {
    var stamped :=
      if HasKey(data, "hittime") then Put(Remove(data, "hittime"), "qt", Hittime(Get(data, "hittime").value, NoneVal, None, now))
      else data;
    if HasKey(data, "hittime") {
      PopIntoQt(data, "hittime", Hittime(Get(data, "hittime").value, NoneVal, None, now));
    }
    assert Get(stamped, "hitage") == Get(data, "hitage");
    assert !HasKey(stamped, "hittime");
    if HasKey(stamped, "hitage") {
      PopIntoQt(stamped, "hitage", Hittime(NoneVal, Get(stamped, "hitage").value, None, now));
    }
  }

  /** An age in whole seconds becomes that many thousand milliseconds of queue time. */
  lemma HitageQueueTime(data: Dict, age: int, now: real)
    requires Get(data, "hitage") == Some(Int(age))
    ensures Get(Timestamped(data, now), "qt") == Some(Int(age * 1000))
  {
    TimestampedSpec(data, now);
    AgeInSeconds(age, now);
  }

  lemma AgeInSeconds(age: int, now: real)
    ensures Hittime(NoneVal, Int(age), None, now) == Int(age * 1000)
  {
    assert NumberOf(Int(age)) * 1000.0 == (age * 1000) as real;
    TruncateWhole(age * 1000);
  }

  /** Tracker.set_timestamp, on the caller's data dict. */
  method SetTimestamp(data: Dict, now: real) returns (r: Dict)
    ensures r == Timestamped(data, now)
  {
    r := data;
    if HasKey(r, "hittime") {
      var timestamp := Get(r, "hittime").value;
      r := Remove(r, "hittime");
      r := Put(r, "qt", Hittime(timestamp, NoneVal, None, now));
    }
    if HasKey(r, "hitage") {
      var age := Get(r, "hitage").value;
      r := Remove(r, "hitage");
      r := Put(r, "qt", Hittime(NoneVal, age, None, now));
    }
  }

  // ---------------------------------------------------------------------------
  // The resolve-and-drop pass (payload).
  // ---------------------------------------------------------------------------

  /** What payload makes of one pair: the coerced (code, value), or the error resolving it raises. */
  type Resolution = Result<(string, Value)>

  function Resolutions(t: AliasTable, py: Builtins, d: Dict): (rs: seq<Resolution>)
    ensures |rs| == |d|
  {
    if d == [] then [] else Resolutions(t, py, d[..|d| - 1]) + [CoerceParameter(t, py, d[|d| - 1].0, d[|d| - 1].1)]
  }

  /** Resolution i is coerceParameter applied to pair i. */
  lemma {:induction false} ResolutionsAll(t: AliasTable, py: Builtins, d: Dict)
    ensures forall i :: 0 <= i < |d| ==> Resolutions(t, py, d)[i] == CoerceParameter(t, py, d[i].0, d[i].1)
  {
    if d != [] {
      var n := |d| - 1;
      ResolutionsAll(t, py, d[..n]);
      assert forall i :: 0 <= i < n ==> d[..n][i] == d[i];
    }
  }

  lemma ResolutionAt(t: AliasTable, py: Builtins, d: Dict, i: nat)
    requires i < |d|
    ensures Resolutions(t, py, d)[i] == CoerceParameter(t, py, d[i].0, d[i].1)
  {
    ResolutionsAll(t, py, d);
  }

  /** The error escapes payload: only KeyError is swallowed. */
  predicate Escapes(r: Resolution) {
    r.Err? && r.error != KeyError
  }

  /** The pair is written under wire code c. */
  predicate WritesTo(r: Resolution, c: string) {
    r.Ok? && r.value.0 == c
  }

  /** Resolving the pair raises something other than KeyError, which payload lets through. */
  predicate RaisesOther(t: AliasTable, py: Builtins, e: (string, Value)) {
    Escapes(CoerceParameter(t, py, e.0, e.1))
  }

  /** The pair resolves to wire code c. */
  predicate ResolvesTo(t: AliasTable, py: Builtins, e: (string, Value), c: string) {
    WritesTo(CoerceParameter(t, py, e.0, e.1), c)
  }

  /** The resolutions written in order into acc: `data[key] = val` for each yielded pair. */
  function Written(acc: Dict, rs: seq<Resolution>): Result<Dict>
    decreases |rs|
  {
    if rs == [] then Ok(acc)
    else
      match Written(acc, rs[..|rs| - 1])
      case Err(e) => Err(e)
      case Ok(out) =>
        match rs[|rs| - 1]
        case Ok(p) => Ok(Put(out, p.0, p.1))
        case Err(e) => if e == KeyError then Ok(out) else Err(e)
  }

  /**
   * The pairs yielded by payload(d), written in order into acc, as both
   * `data[key] = val` and `dict(...)` do: a KeyError skips the pair, any other
   * error escapes.
   */
  function PayloadInto(t: AliasTable, py: Builtins, acc: Dict, d: Dict): Result<Dict> {
    Written(acc, Resolutions(t, py, d))
  }

  /** One more resolution written: the fold advanced by one step. */
  lemma WrittenStep(acc: Dict, rs: seq<Resolution>, i: nat)
    requires i < |rs|
    ensures Written(acc, rs[..i + 1]) ==
      match Written(acc, rs[..i])
      case Err(e) => Err(e)
      case Ok(out) =>
        match rs[i]
        case Ok(p) => Ok(Put(out, p.0, p.1))
        case Err(e) => if e == KeyError then Ok(out) else Err(e)
  {
    assert rs[..i + 1][..i] == rs[..i];
  }

  /** A last resolution that succeeds is written over what the earlier ones left. */
  lemma WrittenSnocOk(acc: Dict, rs: seq<Resolution>, out: Dict, p: (string, Value))
    requires |rs| > 0 && Written(acc, rs[..|rs| - 1]) == Ok(out) && rs[|rs| - 1] == Ok(p)
    ensures Written(acc, rs) == Ok(Put(out, p.0, p.1))
  {
  }

  /** An escaping resolution after a successful prefix is the error of the whole fold. */
  lemma WrittenEscapeAt(acc: Dict, rs: seq<Resolution>, i: nat, out: Dict)
    requires i < |rs| && Written(acc, rs[..i]) == Ok(out) && Escapes(rs[i])
    ensures Written(acc, rs) == Err(rs[i].error)
  {
    WrittenStep(acc, rs, i);
    WrittenErrorPersists(acc, rs, i + 1);
  }

  /** A successful fold succeeded on the prefix, and the last resolution wrote its pair or was skipped. */
  lemma WrittenLast(acc: Dict, rs: seq<Resolution>)
    requires |rs| > 0 && Written(acc, rs).Ok?
    ensures Written(acc, rs[..|rs| - 1]).Ok?
    ensures Written(acc, rs).value ==
      if rs[|rs| - 1].Ok? then Put(Written(acc, rs[..|rs| - 1]).value, rs[|rs| - 1].value.0, rs[|rs| - 1].value.1)
      else Written(acc, rs[..|rs| - 1]).value
  {
  }

  lemma {:induction false} WrittenOutcome(acc: Dict, rs: seq<Resolution>)
    ensures Written(acc, rs).Ok? <==> forall i :: 0 <= i < |rs| ==> !Escapes(rs[i])
    ensures Written(acc, rs).Err? ==> Written(acc, rs).error != KeyError
    ensures Written(acc, rs).Err? ==>
      exists i :: 0 <= i < |rs| && rs[i] == Err(Written(acc, rs).error) && forall j :: 0 <= j < i ==> !Escapes(rs[j])
    decreases |rs|
  {
    if rs != [] {
      var n := |rs| - 1;
      WrittenOutcome(acc, rs[..n]);
      assert forall j :: 0 <= j < n ==> rs[..n][j] == rs[j];
    }
  }

  lemma {:induction false} WrittenUntouched(acc: Dict, rs: seq<Resolution>, r: Dict, c: string)
    requires Written(acc, rs) == Ok(r)
    requires forall i :: 0 <= i < |rs| ==> !WritesTo(rs[i], c)
    ensures Get(r, c) == Get(acc, c)
    decreases |rs|
  {
    if rs != [] {
      var n := |rs| - 1;
      assert forall j :: 0 <= j < n ==> rs[..n][j] == rs[j];
      WrittenUntouched(acc, rs[..n], Written(acc, rs[..n]).value, c);
    }
  }

  lemma {:induction false} WrittenLastWriter(acc: Dict, rs: seq<Resolution>, r: Dict, i: nat, c: string, v: Value)
    requires Written(acc, rs) == Ok(r)
    requires i < |rs| && rs[i] == Ok((c, v))
    requires forall j :: i < j < |rs| ==> !WritesTo(rs[j], c)
    ensures Get(r, c) == Some(v)
    decreases |rs|
  {
    var n := |rs| - 1;
    if i < n {
      WrittenStepKeeps(acc, rs, c);
      PrefixSilent(rs, n, i, c);
      WrittenLastWriter(acc, rs[..n], Written(acc, rs[..n]).value, i, c, v);
    } else {
      WrittenLast(acc, rs);
    }
  }

  /** A last resolution that does not write c leaves c as the earlier ones wrote it. */
  lemma WrittenStepKeeps(acc: Dict, rs: seq<Resolution>, c: string)
    requires |rs| > 0 && Written(acc, rs).Ok? && !WritesTo(rs[|rs| - 1], c)
    ensures Written(acc, rs[..|rs| - 1]).Ok?
    ensures Get(Written(acc, rs).value, c) == Get(Written(acc, rs[..|rs| - 1]).value, c)
  {
    WrittenLast(acc, rs);
  }

  lemma PrefixSilent(rs: seq<Resolution>, n: nat, i: nat, c: string)
    requires i < n <= |rs| && forall j :: i < j < |rs| ==> !WritesTo(rs[j], c)
    ensures rs[..n][i] == rs[i]
    ensures forall j :: i < j < n ==> !WritesTo(rs[..n][j], c)
  {
    forall j | i < j < n ensures !WritesTo(rs[..n][j], c) {
      assert rs[..n][j] == rs[j];
    }
  }

  lemma {:induction false} WrittenWire(acc: Dict, rs: seq<Resolution>, r: Dict)
    requires WireDict(acc) && Written(acc, rs) == Ok(r)
    requires forall i :: 0 <= i < |rs| && rs[i].Ok? ==> WireValue(rs[i].value.1)
    ensures WireDict(r)
    decreases |rs|
  {
    if rs != [] {
      var n := |rs| - 1;
      assert forall j :: 0 <= j < n ==> rs[..n][j] == rs[j];
      WrittenWire(acc, rs[..n], Written(acc, rs[..n]).value);
    }
  }

  lemma {:induction false} WrittenErrorPersists(acc: Dict, rs: seq<Resolution>, i: nat)
    requires i <= |rs| && Written(acc, rs[..i]).Err?
    ensures Written(acc, rs) == Written(acc, rs[..i])
    decreases |rs|
  {
    if i == |rs| {
      assert rs[..i] == rs;
    } else {
      var n := |rs| - 1;
      assert rs[..n][..i] == rs[..i];
      WrittenErrorPersists(acc, rs[..n], i);
    }
  }

  /**
   * payload never lets a KeyError out; it fails exactly when some pair raises
   * another error, and then with the error of the first such pair.
   */
  lemma PayloadOutcome(t: AliasTable, py: Builtins, acc: Dict, d: Dict)
    ensures PayloadInto(t, py, acc, d).Ok? <==> forall i :: 0 <= i < |d| ==> !RaisesOther(t, py, d[i])
    ensures PayloadInto(t, py, acc, d).Err? ==> PayloadInto(t, py, acc, d).error != KeyError
    ensures PayloadInto(t, py, acc, d).Err? ==>
      exists i :: 0 <= i < |d| && CoerceParameter(t, py, d[i].0, d[i].1) == Err(PayloadInto(t, py, acc, d).error) &&
        forall j :: 0 <= j < i ==> !RaisesOther(t, py, d[j])
  {
    ResolutionsAll(t, py, d);
    WrittenOutcome(acc, Resolutions(t, py, d));
  }

  /** A wire code that no pair resolves to keeps acc's value: unresolvable names leave no trace. */
  lemma PayloadUntouched(t: AliasTable, py: Builtins, acc: Dict, d: Dict, r: Dict, c: string)
    requires PayloadInto(t, py, acc, d) == Ok(r)
    requires forall i :: 0 <= i < |d| ==> !ResolvesTo(t, py, d[i], c)
    ensures Get(r, c) == Get(acc, c)
  {
    ResolutionsAll(t, py, d);
    WrittenUntouched(acc, Resolutions(t, py, d), r, c);
  }

  /** A wire code holds the value of the last pair that resolves to it. */
  lemma PayloadLastWriter(t: AliasTable, py: Builtins, acc: Dict, d: Dict, r: Dict, i: nat, c: string, v: Value)
    requires PayloadInto(t, py, acc, d) == Ok(r)
    requires i < |d| && CoerceParameter(t, py, d[i].0, d[i].1) == Ok((c, v))
    requires forall j :: i < j < |d| ==> !ResolvesTo(t, py, d[j], c)
    ensures Get(r, c) == Some(v)
  {
    ResolutionsAll(t, py, d);
    WrittenLastWriter(acc, Resolutions(t, py, d), r, i, c, v);
  }

  /** Str, int and float: what the coercers produce. */
  predicate WireValue(v: Value) {
    v.Str? || v.Int? || v.Float?
  }

  ghost predicate WireDict(d: Dict) {
    forall c :: HasKey(d, c) ==> WireValue(Get(d, c).value)
  }

  /** Every value a name resolves to has gone through a coercer. */
  lemma CoercedIsWire(t: AliasTable, py: Builtins, name: string, value: Value)
    ensures CoerceParameter(t, py, name, value).Ok? ==> WireValue(CoerceParameter(t, py, name, value).value.1)
  {
    if CoerceParameter(t, py, name, value).Ok? && name != "" && name[0] != '&' {
      var entry := Lookup(t, name).value;
      assert CoerceParameter(t, py, name, value).value.1 == Coerce(py, entry.typecast, value).value;
    }
  }

  /** Every value payload writes is a coerced one. */
  lemma PayloadWireValues(t: AliasTable, py: Builtins, acc: Dict, d: Dict, r: Dict)
    requires WireDict(acc) && PayloadInto(t, py, acc, d) == Ok(r)
    ensures WireDict(r)
  {
    var rs := Resolutions(t, py, d);
    forall i | 0 <= i < |rs| && rs[i].Ok? ensures WireValue(rs[i].value.1) {
      ResolutionAt(t, py, d, i);
      CoercedIsWire(t, py, d[i].0, d[i].1);
    }
    WrittenWire(acc, rs, r);
  }

  /** Tracker.payload, consumed pair by pair into acc. */
  method PayloadPairs(t: AliasTable, py: Builtins, acc: Dict, d: Dict) returns (r: Result<Dict>)
    ensures r == PayloadInto(t, py, acc, d)
  {
    ghost var rs := Resolutions(t, py, d);
    var out := acc;
    for i := 0 to |d|
      invariant Written(acc, rs[..i]) == Ok(out)
    {
      var (key, value) := d[i];
      var resolved := CoerceParameter(t, py, key, value);
      ResolutionAt(t, py, d, i);
      match resolved {
        case Ok(p) =>
          WrittenStep(acc, rs, i);
          out := Put(out, p.0, p.1);
        case Err(e) =>
          if e != KeyError {
            WrittenEscapeAt(acc, rs, i, out);
            return Err(e);
          }
          WrittenStep(acc, rs, i);
      }
    }
    assert rs[..|d|] == rs;
    return Ok(out);
  }

  // ---------------------------------------------------------------------------
  // Dict arguments and session state.
  // ---------------------------------------------------------------------------

  /** data after the dict-valued positional arguments are merged in, in order. */
  function Merged(t: AliasTable, py: Builtins, data: Dict, args: seq<Value>): Result<Dict>
    decreases |args|
  {
    if args == [] then Ok(data)
    else
      match Merged(t, py, data, args[..|args| - 1])
      case Err(e) => Err(e)
      case Ok(d) =>
        var item := args[|args| - 1];
        if item.DictVal? then PayloadInto(t, py, d, item.items) else Ok(d)
  }

  /** Arguments that are no dicts (the positional options) contribute nothing to the merge. */
  lemma {:induction false} MergedWithoutDicts(t: AliasTable, py: Builtins, data: Dict, args: seq<Value>)
    requires forall i :: 0 <= i < |args| ==> !args[i].DictVal?
    ensures Merged(t, py, data, args) == Ok(data)
    decreases |args|
  {
    if args != [] {
      var n := |args| - 1;
      assert forall i :: 0 <= i < n ==> args[..n][i] == args[i];
      MergedWithoutDicts(t, py, data, args[..n]);
    }
  }

  lemma {:induction false} MergedErrorPersists(t: AliasTable, py: Builtins, data: Dict, args: seq<Value>, i: nat)
    requires i <= |args| && Merged(t, py, data, args[..i]).Err?
    ensures Merged(t, py, data, args) == Merged(t, py, data, args[..i])
    decreases |args|
  {
    if i == |args| {
      assert args[..i] == args;
    } else {
      var n := |args| - 1;
      assert args[..n][..i] == args[..i];
      MergedErrorPersists(t, py, data, args[..n], i);
    }
  }

  /** Merging never raises KeyError: the payload pass of each dict swallows it. */
  lemma {:induction false} MergedOutcome(t: AliasTable, py: Builtins, data: Dict, args: seq<Value>)
    ensures Merged(t, py, data, args).Err? ==> Merged(t, py, data, args).error != KeyError
    decreases |args|
  {
    if args != [] {
      var n := |args| - 1;
      MergedOutcome(t, py, data, args[..n]);
      if Merged(t, py, data, args[..n]).Ok? && args[n].DictVal? {
        PayloadOutcome(t, py, Merged(t, py, data, args[..n]).value, args[n].items);
      }
    }
  }

  /** The dict-argument loop of Tracker.send. */
  method MergeDictArgs(t: AliasTable, py: Builtins, data: Dict, args: seq<Value>) returns (r: Result<Dict>)
    ensures r == Merged(t, py, data, args)
  {
    var out := data;
    for i := 0 to |args|
      invariant Merged(t, py, data, args[..i]) == Ok(out)
    {
      assert args[..i + 1][..i] == args[..i];
      var item := args[i];
      if item.DictVal? {
        var merged := PayloadPairs(t, py, out, item.items);
        if merged.Err? {
          MergedErrorPersists(t, py, data, args, i + 1);
          return merged;
        }
        out := merged.value;
      }
    }
    assert args[..|args|] == args;
    return Ok(out);
  }

  /** data after the session parameters fill the keys it does not have. */
  function Filled(data: Dict, params: Dict): Dict
    decreases |params|
  {
    if params == [] then data
    else
      var d := Filled(data, params[..|params| - 1]);
      var e := params[|params| - 1];
      if HasKey(d, e.0) then d else Put(d, e.0, e.1)
  }

  /**
   * Session parameters only fill absent keys: call-time values are never
   * overwritten and keep their positions; the filled keys follow them.
   */
  lemma {:induction false} FilledSpec(data: Dict, params: Dict)
    ensures forall k :: Get(Filled(data, params), k) == if HasKey(data, k) then Get(data, k) else Get(params, k)
    ensures |Filled(data, params)| >= |data| && Filled(data, params)[..|data|] == data
    decreases |params|
  {
    if params != [] {
      var n := |params| - 1;
      var prefix := params[..n];
      var e := params[n];
      var d := Filled(data, prefix);
      FilledSpec(data, prefix);
      assert Filled(data, params) == if HasKey(d, e.0) then d else Put(d, e.0, e.1);
      assert forall k :: Get(Filled(data, params), k) == if HasKey(data, k) then Get(data, k) else Get(params, k) by {
        SnocSplit(params);
        forall k ensures Get(Filled(data, params), k) == if HasKey(data, k) then Get(data, k) else Get(params, k) {
          GetSnoc(prefix, e, k);
        }
      }
      assert |Filled(data, params)| >= |data| && Filled(data, params)[..|data|] == data by {
        if !HasKey(d, e.0) {
          PutNew(d, e.0, e.1);
          assert (d + [e])[..|data|] == d[..|data|];
        }
      }
    }
  }

  /** The session-fill loop of Tracker.send. */
  method FillFromSession(data: Dict, params: Dict) returns (r: Dict)
    ensures r == Filled(data, params)
  {
    r := data;
    for i := 0 to |params|
      invariant r == Filled(data, params[..i])
    {
      assert params[..i + 1][..i] == params[..i];
      var (k, v) := params[i];
      if !HasKey(r, k) {
        r := Put(r, k, v);
      }
    }
    assert params[..|params|] == params;
  }

  /** `data["cid"] = generate_uuid(data["cid"])`: a missing cid raises KeyError, a non-str one TypeError. */
  function HashedClientId(py: Builtins, d: Dict): (r: Result<Dict>)
    requires Get(d, "cid") != Some(NoneVal)
    ensures r.Ok? <==> Get(d, "cid").Some? && Get(d, "cid").value.Str?
    ensures r.Ok? ==> r.value == Put(d, "cid", Str(py.uuidOf(Get(d, "cid").value.s)))
    ensures !HasKey(d, "cid") ==> r == Err(KeyError)
  {
    match Get(d, "cid")
    case None => Err(KeyError)
    case Some(v) => if v.Str? then Ok(Put(d, "cid", Str(py.uuidOf(v.s)))) else Err(TypeError)
  }

  /** The hit that send hands to the transport, or the error it raises. */
  function Hit(t: AliasTable, py: Builtins, params: Dict, hashClientId: bool,
               hittype: string, args: seq<Value>, data: Dict, now: real): Result<Dict>
  {
    if hittype !in ValidHitTypes then Err(KeyError)
    else
      var slotted := ConsumedOptions(Timestamped(data, now), hittype, args);
      match Merged(t, py, slotted, args)
      case Err(e) => Err(e)
      case Ok(merged) =>
        var filled := Filled(merged, params);
        match PayloadInto(t, py, [], filled)
        case Err(e) => Err(e)
        case Ok(hit) =>
          if hashClientId then
            PayloadWireValues(t, py, [], filled, hit);
            HashedClientId(py, hit)
          else Ok(hit)
  }

  /**
   * Every value that reaches the wire has gone through a coercer, and the only
   * KeyErrors send raises are an unsupported hit type and (when hashing) a
   * missing cid: unresolvable names never make it raise.
   */
  lemma HitOutcome(t: AliasTable, py: Builtins, params: Dict, hashClientId: bool,
                   hittype: string, args: seq<Value>, data: Dict, now: real)
    ensures hittype !in ValidHitTypes ==> Hit(t, py, params, hashClientId, hittype, args, data, now) == Err(KeyError)
    ensures Hit(t, py, params, hashClientId, hittype, args, data, now).Ok? ==>
      WireDict(Hit(t, py, params, hashClientId, hittype, args, data, now).value)
    ensures Hit(t, py, params, hashClientId, hittype, args, data, now) == Err(KeyError) <==>
      hittype !in ValidHitTypes ||
      (var merged := Merged(t, py, ConsumedOptions(Timestamped(data, now), hittype, args), args);
       hashClientId && merged.Ok? && PayloadInto(t, py, [], Filled(merged.value, params)).Ok? &&
       !HasKey(PayloadInto(t, py, [], Filled(merged.value, params)).value, "cid"))
  {
    if hittype in ValidHitTypes {
      var slotted := ConsumedOptions(Timestamped(data, now), hittype, args);
      MergedOutcome(t, py, slotted, args);
      if Merged(t, py, slotted, args).Ok? {
        var filled := Filled(Merged(t, py, slotted, args).value, params);
        PayloadOutcome(t, py, [], filled);
        if PayloadInto(t, py, [], filled).Ok? {
          var hit := PayloadInto(t, py, [], filled).value;
          PayloadWireValues(t, py, [], filled, hit);
          HashedIsWire(py, hit);
        }
      }
    }
  }

  lemma HashedIsWire(py: Builtins, d: Dict)
    requires WireDict(d)
    ensures HashedClientId(py, d).Ok? ==> WireDict(HashedClientId(py, d).value)
  {
  }


  // ---------------------------------------------------------------------------
  // Precedence of call-time data over session data.
  // ---------------------------------------------------------------------------

  lemma InPrefix<T>(s: seq<T>, n: nat, x: T)
    requires n <= |s| && x in s[..n]
    ensures x in s
  {
    var q :| 0 <= q < n && s[..n][q] == x;
    assert s[q] == x;
  }

  /** What the fill appends after data are session pairs under keys that data does not have. */
  lemma {:induction false} FilledTail(data: Dict, params: Dict)
    ensures |Filled(data, params)| >= |data| && Filled(data, params)[..|data|] == data
    ensures forall m :: |data| <= m < |Filled(data, params)| ==>
      Filled(data, params)[m] in params && !HasKey(data, Filled(data, params)[m].0)
    decreases |params|
  {
    FilledSpec(data, params);
    if params != [] {
      var n := |params| - 1;
      var d := Filled(data, params[..n]);
      var e := params[n];
      FilledTail(data, params[..n]);
      FilledSpec(data, params[..n]);
      forall m | |data| <= m < |d| ensures d[m] in params && !HasKey(data, d[m].0) {
        InPrefix(params, n, d[m]);
      }
      if !HasKey(d, e.0) {
        PutNew(d, e.0, e.1);
        assert !HasKey(data, e.0);
        forall m | |data| <= m < |d| + 1 ensures (d + [e])[m] in params && !HasKey(data, (d + [e])[m].0) {
          if m < |d| {
            assert (d + [e])[m] == d[m];
          }
        }
      }
    }
  }

  /**
   * What does hold as written: a call-time key that is its own wire code keeps
   * its value, provided no session key other than the code itself resolves to it.
   */
  lemma CallTimeCodeKept(t: AliasTable, py: Builtins, data: Dict, params: Dict, hit: Dict, i: nat, c: string, v: Value)
    requires PayloadInto(t, py, [], Filled(data, params)) == Ok(hit)
    requires i < |data| && data[i].0 == c && CoerceParameter(t, py, c, data[i].1) == Ok((c, v))
    requires forall j :: i < j < |data| ==> !ResolvesTo(t, py, data[j], c)
    requires forall e :: e in params && ResolvesTo(t, py, e, c) ==> e.0 == c
    ensures Get(hit, c) == Some(v)
  {
    var f := Filled(data, params);
    FilledTail(data, params);
    HasKeyIndex(data, c);
    forall j | i < j < |f| ensures !ResolvesTo(t, py, f[j], c) {
      if j < |data| {
        assert f[..|data|][j] == f[j];
      }
    }
    assert f[..|data|][i] == f[i];
    PayloadLastWriter(t, py, [], f, hit, i, c, v);
  }

  /** The same for the whole of send: hashing touches only cid. */
  lemma HitKeepsCallTimeCode(t: AliasTable, py: Builtins, params: Dict, hashClientId: bool, hittype: string,
                             args: seq<Value>, data: Dict, now: real, merged: Dict, hit: Dict, i: nat, c: string, v: Value)
    requires Hit(t, py, params, hashClientId, hittype, args, data, now) == Ok(hit)
    requires Merged(t, py, ConsumedOptions(Timestamped(data, now), hittype, args), args) == Ok(merged)
    requires i < |merged| && merged[i].0 == c && CoerceParameter(t, py, c, merged[i].1) == Ok((c, v))
    requires forall j :: i < j < |merged| ==> !ResolvesTo(t, py, merged[j], c)
    requires forall e :: e in params && ResolvesTo(t, py, e, c) ==> e.0 == c
    requires !hashClientId || c != "cid"
    ensures Get(hit, c) == Some(v)
  {
    var unhashed := PayloadInto(t, py, [], Filled(merged, params));
    assert unhashed.Ok?;
    CallTimeCodeKept(t, py, merged, params, unhashed.value, i, c, v);
  }

  /** A table under which page is an alias of dp, as the module's declarations make it. */
  ghost predicate PageAliased(t: AliasTable) {
    && "page" in t && t["page"] == Entry(SafeUnicode, "dp")
    && "dp" in t && t["dp"] == Entry(SafeUnicode, "dp")
    && "t" in t && t["t"] == Entry(SafeUnicode, "t")
  }

  /** The dict a pageview sent with page=path assembles before the fill. */
  lemma PageKeywordSlots(path: string, now: real)
    ensures ConsumedOptions(Timestamped([("page", Str(path))], now), "pageview", []) ==
      [("page", Str(path)), ("t", Str("pageview"))]
  {
    var data: Dict := [("page", Str(path))];
    assert Keys(data) == ["page"];
    assert Timestamped(data, now) == data;
    PutNew(data, "t", Str("pageview"));
    var typed := Put(data, "t", Str("pageview"));
    assert Consumed(typed, OptionSequence("pageview")[..0], []) == typed;
  }

  /** The pairs of that pageview resolve in order to these codes and values. */
  lemma PageKeywordResolutions(t: AliasTable, py: Builtins, f: Dict)
    requires Pythonic(py) && PageAliased(t)
    requires f == [("page", Str("/x")), ("t", Str("pageview")), ("dp", Str("/y"))]
    ensures Resolutions(t, py, f) == [Ok(("dp", Str("/x"))), Ok(("t", Str("pageview"))), Ok(("dp", Str("/y")))]
  {
    ResolutionsAll(t, py, f);
    RegisteredNameResolves(t, py, "page", Str("/x"));
    RegisteredNameResolves(t, py, "t", Str("pageview"));
    RegisteredNameResolves(t, py, "dp", Str("/y"));
  }

  /** As written, the fill appends the session dp after the call's page. */
  lemma SessionPageFilled()
    ensures Filled([("page", Str("/x")), ("t", Str("pageview"))], [("dp", Str("/y"))]) ==
      [("page", Str("/x")), ("t", Str("pageview")), ("dp", Str("/y"))]
  {
    var slotted: Dict := [("page", Str("/x")), ("t", Str("pageview"))];
    assert Keys(slotted) == ["page", "t"];
    PutNew(slotted, "dp", Str("/y"));
  }

  /** Two and three successful resolutions written into an empty dict. */
  lemma WrittenTwo(rs: seq<Resolution>, p0: (string, Value), p1: (string, Value))
    requires rs == [Ok(p0), Ok(p1)]
    ensures Written([], rs) == Ok(Put(Put([], p0.0, p0.1), p1.0, p1.1))
  {
    var r1 := rs[..1];
    assert r1[..0] == [];
    WrittenSnocOk([], r1, [], p0);
    WrittenSnocOk([], rs, Put([], p0.0, p0.1), p1);
  }

  lemma WrittenThree(rs: seq<Resolution>, p0: (string, Value), p1: (string, Value), p2: (string, Value))
    requires rs == [Ok(p0), Ok(p1), Ok(p2)]
    ensures Written([], rs) == Ok(Put(Put(Put([], p0.0, p0.1), p1.0, p1.1), p2.0, p2.1))
  {
    WrittenTwo(rs[..2], p0, p1);
    WrittenSnocOk([], rs, Put(Put([], p0.0, p0.1), p1.0, p1.1), p2);
  }

  /** The payload of the filled pageview: the later dp, the session's, wins. */
  lemma SessionPagePayload(t: AliasTable, py: Builtins)
    requires Pythonic(py) && PageAliased(t)
    ensures PayloadInto(t, py, [], [("page", Str("/x")), ("t", Str("pageview")), ("dp", Str("/y"))]) ==
      Ok([("dp", Str("/y")), ("t", Str("pageview"))])
  {
    var f: Dict := [("page", Str("/x")), ("t", Str("pageview")), ("dp", Str("/y"))];
    PageKeywordResolutions(t, py, f);
    WrittenThree(Resolutions(t, py, f), ("dp", Str("/x")), ("t", Str("pageview")), ("dp", Str("/y")));
    PutNew([("dp", Str("/x"))], "t", Str("pageview"));
    assert Put([("dp", Str("/x")), ("t", Str("pageview"))], "dp", Str("/y")) == [("dp", Str("/y")), ("t", Str("pageview"))];
  }

  /**
   * As written, the session beats call-time data given through an alias:
   * with dp set on the tracker, send("pageview", page="/x") sends the session's dp.
   */
  lemma SessionOverridesCallTime(t: AliasTable, py: Builtins, now: real)
    requires Pythonic(py) && PageAliased(t)
    ensures Hit(t, py, [("dp", Str("/y"))], false, "pageview", [], [("page", Str("/x"))], now) ==
      Ok([("dp", Str("/y")), ("t", Str("pageview"))])
  {
    var slotted: Dict := [("page", Str("/x")), ("t", Str("pageview"))];
    PageKeywordSlots("/x", now);
    SessionPageFilled();
    SessionPagePayload(t, py);
    HitUnhashed(t, py, [("dp", Str("/y"))], "pageview", [], [("page", Str("/x"))], now, slotted,
                [("dp", Str("/y")), ("t", Str("pageview"))]);
  }

  /** The hit of SessionOverridesCallTime through the table the module's declarations build. */
  lemma StandardSessionOverridesCallTime(t: AliasTable, py: Builtins, now: real)
    requires Pythonic(py)
    ensures Hit(Declared(t, StandardDecls()), py, [("dp", Str("/y"))], false, "pageview", [], [("page", Str("/x"))], now) ==
      Ok([("dp", Str("/y")), ("t", Str("pageview"))])
  {
    StandardPageAlias(t);
    StandardPageCode(t);
    StandardHitTypeCode(t);
    SessionOverridesCallTime(Declared(t, StandardDecls()), py, now);
  }

  /** Some call-time key stands for the wire code that k stands for. */
  predicate CalledCode(t: AliasTable, data: Dict, k: string) {
    ResolveName(t, k).Ok? && exists i :: 0 <= i < |data| && ResolveName(t, data[i].0) == ResolveName(t, k)
  }

  /** The session pairs whose wire code no call-time key stands for, in order. */
  function Uncalled(t: AliasTable, data: Dict, params: Dict): (r: Dict)
    ensures forall e :: e in r ==> e in params && !CalledCode(t, data, e.0)
    ensures forall e :: e in params && !CalledCode(t, data, e.0) ==> e in r
    decreases |params|
  {
    if params == [] then []
    else
      var n := |params| - 1;
      var rest := Uncalled(t, data, params[..n]);
      assert forall e :: e in rest ==> e in params by {
        forall e | e in rest ensures e in params {
          InPrefix(params, n, e);
        }
      }
      if CalledCode(t, data, params[n].0) then rest else rest + [params[n]]
  }

  /** Uncalled is a filter: it keeps session order, splitting over a split session. */
  lemma {:induction false} UncalledAppend(t: AliasTable, data: Dict, a: Dict, b: Dict)
    ensures Uncalled(t, data, a + b) == Uncalled(t, data, a) + Uncalled(t, data, b)
    decreases |b|
  {
    if b == [] {
      assert a + b == a;
    } else {
      var n := |b| - 1;
      UncalledAppend(t, data, a, b[..n]);
      assert (a + b)[..|a + b| - 1] == a + b[..n];
    }
  }

  /** The fill as evidently intended: a session value is skipped when call-time data already names its wire code. */
  function FilledByCode(t: AliasTable, data: Dict, params: Dict): Dict {
    Filled(data, Uncalled(t, data, params))
  }

  /** The corrected session-fill loop: a session pair is skipped when call-time data names its wire code. */
  method FillUncalled(t: AliasTable, data: Dict, params: Dict) returns (r: Dict)
    ensures r == FilledByCode(t, data, params)
  {
    r := data;
    ghost var u: Dict := [];
    for i := 0 to |params|
      invariant u == Uncalled(t, data, params[..i])
      invariant r == Filled(data, u)
    {
      assert params[..i + 1][..i] == params[..i];
      var (k, v) := params[i];
      if !CalledCode(t, data, k) {
        assert (u + [(k, v)])[..|u|] == u;
        u := u + [(k, v)];
        if !HasKey(r, k) {
          r := Put(r, k, v);
        }
      }
    }
    assert params[..|params|] == params;
  }

  /** Session pairs none of whose codes the call names are all kept. */
  lemma {:induction false} UncalledAll(t: AliasTable, data: Dict, params: Dict)
    requires forall i :: 0 <= i < |params| ==> !CalledCode(t, data, params[i].0)
    ensures Uncalled(t, data, params) == params
    decreases |params|
  {
    if params != [] {
      var n := |params| - 1;
      UncalledAll(t, data, params[..n]);
      assert params[..n] + [params[n]] == params;
    }
  }

  /** send with the corrected fill. */
  function CallTimeHit(t: AliasTable, py: Builtins, params: Dict, hashClientId: bool,
                       hittype: string, args: seq<Value>, data: Dict, now: real): Result<Dict>
  {
    if hittype !in ValidHitTypes then Err(KeyError)
    else
      var slotted := ConsumedOptions(Timestamped(data, now), hittype, args);
      match Merged(t, py, slotted, args)
      case Err(e) => Err(e)
      case Ok(merged) =>
        var filled := FilledByCode(t, merged, params);
        match PayloadInto(t, py, [], filled)
        case Err(e) => Err(e)
        case Ok(hit) =>
          if hashClientId then
            PayloadWireValues(t, py, [], filled, hit);
            HashedClientId(py, hit)
          else Ok(hit)
  }

  /**
   * The corrected send is send over the session pairs the call does not name,
   * so every property of Hit for all sessions holds of it.
   */
  lemma CallTimeHitIsHit(t: AliasTable, py: Builtins, params: Dict, hashClientId: bool,
                         hittype: string, args: seq<Value>, data: Dict, now: real)
    ensures var merged := Merged(t, py, ConsumedOptions(Timestamped(data, now), hittype, args), args);
      CallTimeHit(t, py, params, hashClientId, hittype, args, data, now) ==
      Hit(t, py, if merged.Ok? then Uncalled(t, merged.value, params) else params, hashClientId, hittype, args, data, now)
  {
  }

  /** With the corrected fill, every wire code a call-time key resolves to holds the call-time value. */
  lemma CallTimeWins(t: AliasTable, py: Builtins, data: Dict, params: Dict, hit: Dict, i: nat, c: string, v: Value)
    requires PayloadInto(t, py, [], FilledByCode(t, data, params)) == Ok(hit)
    requires i < |data| && CoerceParameter(t, py, data[i].0, data[i].1) == Ok((c, v))
    requires forall j :: i < j < |data| ==> !ResolvesTo(t, py, data[j], c)
    ensures Get(hit, c) == Some(v)
  {
    var f := Filled(data, Uncalled(t, data, params));
    FilledTail(data, Uncalled(t, data, params));
    assert ResolveName(t, data[i].0) == Ok(c);
    forall j | i < j < |f| ensures !ResolvesTo(t, py, f[j], c) {
      if j < |data| {
        assert f[..|data|][j] == f[j];
      } else {
        var e := f[j];
        assert e in Uncalled(t, data, params);
      }
    }
    assert f[..|data|][i] == f[i];
    PayloadLastWriter(t, py, [], f, hit, i, c, v);
  }

  /** Some occurrence of x in s has no later occurrence. */
  lemma {:induction false} LastOccurrence<T>(s: seq<T>, x: T) returns (i: nat)
    requires x in s
    ensures i < |s| && s[i] == x && forall j :: i < j < |s| ==> s[j] != x
    decreases |s|
  {
    if s[|s| - 1] == x {
      i := |s| - 1;
    } else {
      var q :| 0 <= q < |s| && s[q] == x;
      assert s[..|s| - 1][q] == x;
      i := LastOccurrence(s[..|s| - 1], x);
      assert forall j :: i < j < |s| - 1 ==> s[j] == s[..|s| - 1][j];
    }
  }

  /**
   * With the corrected fill, a session value fills every wire code the call
   * does not name: its own code holds it when it is the session's only pair
   * under or resolving to that code.
   */
  lemma SessionFillsUncalled(t: AliasTable, py: Builtins, data: Dict, params: Dict, hit: Dict, c: string, v0: Value, v: Value)
    requires PayloadInto(t, py, [], FilledByCode(t, data, params)) == Ok(hit)
    requires (c, v0) in params && CoerceParameter(t, py, c, v0) == Ok((c, v))
    requires !CalledCode(t, data, c)
    requires forall e :: e in params && (e.0 == c || ResolvesTo(t, py, e, c)) ==> e == (c, v0)
    ensures Get(hit, c) == Some(v)
  {
    var u := Uncalled(t, data, params);
    var f := Filled(data, u);
    assert ResolveName(t, c) == Ok(c);
    forall j | 0 <= j < |data| ensures ResolveName(t, data[j].0) != Ok(c) && data[j].0 != c {
    }
    HasKeyIndex(data, c);
    HasKeyIndex(u, c);
    GetIn(u, c);
    assert Get(u, c) == Some(v0);
    FilledSpec(data, u);
    FilledTail(data, u);
    GetIn(f, c);
    forall j | 0 <= j < |data| ensures f[j] != (c, v0) {
      assert f[..|data|][j] == f[j];
    }
    var i := LastOccurrence(f, (c, v0));
    forall j | i < j < |f| ensures !ResolvesTo(t, py, f[j], c) {
      assert f[j] in u && f[j] != (c, v0);
    }
    PayloadLastWriter(t, py, [], f, hit, i, c, v);
  }

  /** The same for the whole of the corrected send. */
  lemma CallTimeHitSessionFills(t: AliasTable, py: Builtins, params: Dict, hashClientId: bool, hittype: string,
                                args: seq<Value>, data: Dict, now: real, merged: Dict, hit: Dict, c: string, v0: Value, v: Value)
    requires CallTimeHit(t, py, params, hashClientId, hittype, args, data, now) == Ok(hit)
    requires Merged(t, py, ConsumedOptions(Timestamped(data, now), hittype, args), args) == Ok(merged)
    requires (c, v0) in params && CoerceParameter(t, py, c, v0) == Ok((c, v))
    requires !CalledCode(t, merged, c)
    requires forall e :: e in params && (e.0 == c || ResolvesTo(t, py, e, c)) ==> e == (c, v0)
    requires !hashClientId || c != "cid"
    ensures Get(hit, c) == Some(v)
  {
    var unhashed := PayloadInto(t, py, [], FilledByCode(t, merged, params));
    assert unhashed.Ok?;
    SessionFillsUncalled(t, py, merged, params, unhashed.value, c, v0, v);
  }

  /** The same for the whole of the corrected send. */
  lemma CallTimeHitWins(t: AliasTable, py: Builtins, params: Dict, hashClientId: bool, hittype: string,
                        args: seq<Value>, data: Dict, now: real, merged: Dict, hit: Dict, i: nat, c: string, v: Value)
    requires CallTimeHit(t, py, params, hashClientId, hittype, args, data, now) == Ok(hit)
    requires Merged(t, py, ConsumedOptions(Timestamped(data, now), hittype, args), args) == Ok(merged)
    requires i < |merged| && CoerceParameter(t, py, merged[i].0, merged[i].1) == Ok((c, v))
    requires forall j :: i < j < |merged| ==> !ResolvesTo(t, py, merged[j], c)
    requires !hashClientId || c != "cid"
    ensures Get(hit, c) == Some(v)
  {
    var unhashed := PayloadInto(t, py, [], FilledByCode(t, merged, params));
    assert unhashed.Ok?;
    CallTimeWins(t, py, merged, params, unhashed.value, i, c, v);
  }

  /** A corrected send that does not hash the client id is the payload of the corrected fill. */
  lemma CallTimeHitUnhashed(t: AliasTable, py: Builtins, params: Dict, hittype: string, args: seq<Value>, data: Dict,
                            now: real, merged: Dict, hit: Dict)
    requires hittype in ValidHitTypes
    requires Merged(t, py, ConsumedOptions(Timestamped(data, now), hittype, args), args) == Ok(merged)
    requires PayloadInto(t, py, [], FilledByCode(t, merged, params)) == Ok(hit)
    ensures CallTimeHit(t, py, params, false, hittype, args, data, now) == Ok(hit)
  {
  }

  /** The corrected fill drops the session dp, since the call's page already stands for dp. */
  lemma CalledPageFilled(t: AliasTable)
    requires PageAliased(t)
    ensures FilledByCode(t, [("page", Str("/x")), ("t", Str("pageview"))], [("dp", Str("/y"))]) ==
      [("page", Str("/x")), ("t", Str("pageview"))]
  {
    var slotted: Dict := [("page", Str("/x")), ("t", Str("pageview"))];
    var session: Dict := [("dp", Str("/y"))];
    assert ResolveName(t, slotted[0].0) == ResolveName(t, "dp");
    assert CalledCode(t, slotted, "dp");
    assert session[..0] == [];
    assert Uncalled(t, slotted, session) == [];
  }

  /** The payload of the pageview the corrected fill leaves. */
  lemma CalledPagePayload(t: AliasTable, py: Builtins)
    requires Pythonic(py) && PageAliased(t)
    ensures PayloadInto(t, py, [], [("page", Str("/x")), ("t", Str("pageview"))]) ==
      Ok([("dp", Str("/x")), ("t", Str("pageview"))])
  {
    var f: Dict := [("page", Str("/x")), ("t", Str("pageview"))];
    ResolutionsAll(t, py, f);
    RegisteredNameResolves(t, py, "page", Str("/x"));
    RegisteredNameResolves(t, py, "t", Str("pageview"));
    assert Resolutions(t, py, f) == [Ok(("dp", Str("/x"))), Ok(("t", Str("pageview")))];
    WrittenTwo(Resolutions(t, py, f), ("dp", Str("/x")), ("t", Str("pageview")));
    assert Put([], "dp", Str("/x")) == [("dp", Str("/x"))];
    PutNew([("dp", Str("/x"))], "t", Str("pageview"));
    assert Put([("dp", Str("/x"))], "t", Str("pageview")) == [("dp", Str("/x")), ("t", Str("pageview"))];
  }

  /** With the corrected fill, the pageview of SessionOverridesCallTime sends the call's page. */
  lemma CallTimeOverridesSession(t: AliasTable, py: Builtins, now: real)
    requires Pythonic(py) && PageAliased(t)
    ensures CallTimeHit(t, py, [("dp", Str("/y"))], false, "pageview", [], [("page", Str("/x"))], now) ==
      Ok([("dp", Str("/x")), ("t", Str("pageview"))])
  {
    var slotted: Dict := [("page", Str("/x")), ("t", Str("pageview"))];
    PageKeywordSlots("/x", now);
    CalledPageFilled(t);
    CalledPagePayload(t, py);
    CallTimeHitUnhashed(t, py, [("dp", Str("/y"))], "pageview", [], [("page", Str("/x"))], now, slotted,
                        [("dp", Str("/x")), ("t", Str("pageview"))]);
  }

  // ---------------------------------------------------------------------------
  // Session state: the tracker's own parameters.
  // ---------------------------------------------------------------------------

  /** The parameters Tracker.__init__ starts with; generatedId stands for generate_uuid(). */
  function InitialParams(account: Value, clientId: Value, userId: Value, generatedId: string): Dict {
    var base := [("v", Int(1)), ("tid", account), ("cid", if Truthy(clientId) then clientId else Str(generatedId))];
    if userId != NoneVal then base + [("uid", userId)] else base
  }

  /** A fresh tracker holds v, tid and cid, then uid when a user id is given, in that order. */
  lemma InitialKeys(account: Value, clientId: Value, userId: Value, generatedId: string)
    ensures Keys(InitialParams(account, clientId, userId, generatedId)) ==
      ["v", "tid", "cid"] + (if userId != NoneVal then ["uid"] else [])
  {
    var cid := if Truthy(clientId) then clientId else Str(generatedId);
    var base := [("v", Int(1)), ("tid", account), ("cid", cid)];
    KeysSnoc([("v", Int(1))], ("tid", account));
    assert [("v", Int(1))] + [("tid", account)] == base[..2];
    KeysSnoc(base[..2], ("cid", cid));
    assert base[..2] + [("cid", cid)] == base;
    if userId != NoneVal {
      KeysSnoc(base, ("uid", userId));
    }
  }

  /** Protocol version 1, the account, the client id or a generated one, and the user id when given. */
  lemma InitialValues(account: Value, clientId: Value, userId: Value, generatedId: string)
    ensures var p := InitialParams(account, clientId, userId, generatedId);
      && Get(p, "v") == Some(Int(1)) && Get(p, "tid") == Some(account)
      && Get(p, "cid") == Some(if Truthy(clientId) then clientId else Str(generatedId))
      && Get(p, "uid") == if userId != NoneVal then Some(userId) else None
  {
    var p := InitialParams(account, clientId, userId, generatedId);
    var cid := if Truthy(clientId) then clientId else Str(generatedId);
    var version := [("v", Int(1))];
    var tracking := version + [("tid", account)];
    var base := tracking + [("cid", cid)];
    assert base == [("v", Int(1)), ("tid", account), ("cid", cid)];
    assert Get(base, "v") == Some(Int(1)) && Get(base, "tid") == Some(account) && Get(base, "cid") == Some(cid)
        && !HasKey(base, "uid") by {
      GetSnoc(version, ("tid", account), "tid");
      GetSnoc(version, ("tid", account), "v");
      GetSnoc(version, ("tid", account), "cid");
      GetSnoc(version, ("tid", account), "uid");
      KeysSnoc(version, ("tid", account));
      GetSnoc(tracking, ("cid", cid), "tid");
      GetSnoc(tracking, ("cid", cid), "v");
      GetSnoc(tracking, ("cid", cid), "cid");
      GetSnoc(tracking, ("cid", cid), "uid");
      KeysSnoc(tracking, ("cid", cid));
    }
    if userId != NoneVal {
      assert p == base + [("uid", userId)];
      GetSnoc(base, ("uid", userId), "tid");
      GetSnoc(base, ("uid", userId), "v");
      GetSnoc(base, ("uid", userId), "cid");
      GetSnoc(base, ("uid", userId), "uid");
    } else {
      assert p == base;
    }
  }

  /** tracker[name] as written: coerceParameter(name, None) runs the typecast on None. */
  function ItemAsWritten(t: AliasTable, py: Builtins, params: Dict, name: string): Result<Value> {
    match CoerceParameter(t, py, name, NoneVal)
    case Err(e) => Err(e)
    case Ok(p) => Ok(Get(params, p.0).GetOr(NoneVal))
  }

  /** del tracker[name] as written, with the same typecast of None. */
  function DeletedAsWritten(t: AliasTable, py: Builtins, params: Dict, name: string): Result<Dict> {
    match CoerceParameter(t, py, name, NoneVal)
    case Err(e) => Err(e)
    case Ok(p) => Ok(Remove(params, p.0))
  }

  /**
   * tracker[name]: the session value under the name's wire code, None when
   * there is none; a name that does not resolve raises.
   */
  function Item(t: AliasTable, params: Dict, name: string): (r: Result<Value>)
    ensures r.Err? <==> ResolveName(t, name).Err?
    ensures r.Err? ==> r.error == ResolveName(t, name).error
    ensures r.Ok? && HasKey(params, ResolveName(t, name).value) ==> (ResolveName(t, name).value, r.value) in params
    ensures r.Ok? && !HasKey(params, ResolveName(t, name).value) ==> r.value == NoneVal
  {
    match ResolveName(t, name)
    case Err(e) => Err(e)
    case Ok(c) =>
      GetIn(params, c);
      Ok(Get(params, c).GetOr(NoneVal))
  }

  /** tracker[name] = value: the coerced value stored under the wire code. */
  function Assigned(t: AliasTable, py: Builtins, params: Dict, name: string, value: Value): (r: Result<Dict>)
    ensures ResolveName(t, name).Err? ==> r == Err(ResolveName(t, name).error)
    ensures r.Ok? ==> CoerceParameter(t, py, name, value).Ok?
    ensures r.Ok? ==> Get(r.value, ResolveName(t, name).value) == Some(CoerceParameter(t, py, name, value).value.1)
    ensures r.Ok? ==> forall k :: k != ResolveName(t, name).value ==> Get(r.value, k) == Get(params, k)
  {
    match CoerceParameter(t, py, name, value)
    case Err(e) => Err(e)
    case Ok(p) => Ok(Put(params, p.0, p.1))
  }

  /** del tracker[name]: the wire code is gone, every other entry stays. */
  function Deleted(t: AliasTable, params: Dict, name: string): (r: Result<Dict>)
    ensures r.Err? <==> ResolveName(t, name).Err?
    ensures r.Err? ==> r.error == ResolveName(t, name).error
    ensures r.Ok? ==> !HasKey(r.value, ResolveName(t, name).value)
    ensures r.Ok? ==> forall k :: k != ResolveName(t, name).value ==> Get(r.value, k) == Get(params, k)
    ensures r.Ok? && !HasKey(params, ResolveName(t, name).value) ==> r.value == params
  {
    match ResolveName(t, name)
    case Err(e) => Err(e)
    case Ok(c) => Ok(Remove(params, c))
  }

  /** Reading a name back after assigning it gives the coerced value. */
  lemma SetThenGet(t: AliasTable, py: Builtins, params: Dict, name: string, value: Value)
    requires Assigned(t, py, params, name, value).Ok?
    ensures Item(t, Assigned(t, py, params, name, value).value, name) == Ok(CoerceParameter(t, py, name, value).value.1)
  {
  }

  /** Reading a name back after deleting it gives None. */
  lemma DeleteThenGet(t: AliasTable, params: Dict, name: string)
    requires Deleted(t, params, name).Ok?
    ensures Item(t, Deleted(t, params, name).value, name) == Ok(NoneVal)
  {
  }

  /** All aliases of one wire code read and write the same session entry. */
  lemma AliasesShareEntry(t: AliasTable, py: Builtins, params: Dict, name: string, other: string, value: Value)
    requires ResolveName(t, name).Ok? && ResolveName(t, other) == ResolveName(t, name)
    requires Assigned(t, py, params, name, value).Ok?
    ensures Item(t, Assigned(t, py, params, name, value).value, other) == Ok(CoerceParameter(t, py, name, value).value.1)
  {
  }

  /**
   * As written, reading or deleting an int- or float-typed name raises
   * TypeError, because None goes through int() or float().
   */
  lemma TypedItemAsWrittenRaises(t: AliasTable, py: Builtins, params: Dict, name: string, code: string, cast: Coercer)
    requires Pythonic(py) && name != "" && name[0] != '&'
    requires cast == IntCast || cast == FloatCast
    requires Lookup(t, name) == Some(Entry(cast, code))
    ensures ItemAsWritten(t, py, params, name) == Err(TypeError)
    ensures DeletedAsWritten(t, py, params, name) == Err(TypeError)
    ensures Item(t, params, name) == Ok(Get(params, code).GetOr(NoneVal))
    ensures Deleted(t, params, name) == Ok(Remove(params, code))
  {
  }

  /** tracker["v"] on a fresh tracker: the version is 1, yet the code as written raises. */
  lemma VersionItemAsWritten(t: AliasTable, py: Builtins, account: Value, clientId: Value, userId: Value, generatedId: string)
    requires Pythonic(py) && Lookup(t, "v") == Some(Entry(IntCast, "v"))
    ensures ItemAsWritten(t, py, InitialParams(account, clientId, userId, generatedId), "v") == Err(TypeError)
    ensures Item(t, InitialParams(account, clientId, userId, generatedId), "v") == Ok(Int(1))
  {
    TypedItemAsWrittenRaises(t, py, InitialParams(account, clientId, userId, generatedId), "v", "v", IntCast);
  }

  /** Apart from int- and float-typed names, the code as written and the fixed one agree. */
  lemma ItemAsWrittenAgrees(t: AliasTable, py: Builtins, params: Dict, name: string)
    requires name == "" || name[0] == '&' || Lookup(t, name).None? ||
      Lookup(t, name).value.typecast == StrCast || Lookup(t, name).value.typecast == SafeUnicode
    ensures ItemAsWritten(t, py, params, name) == Item(t, params, name)
    ensures DeletedAsWritten(t, py, params, name) == Deleted(t, params, name)
  {
  }

  /** The entries set(name, value) goes through: a dict's items, or the one pair; any other name is ignored. */
  function SetEntries(name: Value, value: Value): Dict {
    if name.DictVal? then name.items else if name.Str? then [(name.s, value)] else []
  }

  /** The position of the first resolution that escapes, |rs| when none does. */
  function FirstEscape(rs: seq<Resolution>): (i: nat)
    ensures i <= |rs|
    ensures forall j :: 0 <= j < i ==> !Escapes(rs[j])
    ensures i < |rs| ==> Escapes(rs[i])
  {
    if rs == [] then 0
    else if Escapes(rs[0]) then 0
    else 1 + FirstEscape(rs[1..])
  }

  /** The first escape is at i when none comes before i and rs[i] escapes (or i is the end). */
  lemma {:induction false} FirstEscapeAt(rs: seq<Resolution>, i: nat)
    requires i <= |rs|
    requires forall j :: 0 <= j < i ==> !Escapes(rs[j])
    requires i < |rs| ==> Escapes(rs[i])
    ensures FirstEscape(rs) == i
  {
    if rs != [] && i > 0 {
      assert forall j :: 0 <= j < i - 1 ==> rs[1..][j] == rs[j + 1];
      FirstEscapeAt(rs[1..], i - 1);
    }
  }

  /** While the fold has not failed, no resolution so far escapes; so an escape at i is the first. */
  lemma WrittenFirstEscape(acc: Dict, rs: seq<Resolution>, i: nat)
    requires i <= |rs| && Written(acc, rs[..i]).Ok?
    requires i < |rs| ==> Escapes(rs[i])
    ensures FirstEscape(rs) == i
  {
    WrittenOutcome(acc, rs[..i]);
    assert forall j :: 0 <= j < i ==> rs[..i][j] == rs[j];
    FirstEscapeAt(rs, i);
  }

  /**
   * The session parameters after set, and the error it raises: recognised
   * entries are written in order, unrecognised ones (KeyError) are skipped,
   * and any other error stops the loop with the earlier writes kept.
   */
  function SetOutcome(t: AliasTable, py: Builtins, params: Dict, entries: Dict): (Dict, Option<PyError>) {
    var rs := Resolutions(t, py, entries);
    var i := FirstEscape(rs);
    WrittenOutcome(params, rs[..i]);
    assert forall j :: 0 <= j < i ==> rs[..i][j] == rs[j];
    (Written(params, rs[..i]).value, if i < |rs| then Some(rs[i].error) else None)
  }

  /** set with an unrecognised str name changes nothing and raises nothing. */
  lemma SetIgnoresUnknownName(t: AliasTable, py: Builtins, params: Dict, name: string, value: Value)
    requires name != "" && name[0] != '&' && Lookup(t, name).None?
    ensures SetOutcome(t, py, params, SetEntries(Str(name), value)) == (params, None)
  {
    var rs := Resolutions(t, py, [(name, value)]);
    ResolutionAt(t, py, [(name, value)], 0);
    assert rs[0] == Err(KeyError) && !Escapes(rs[0]);
    assert FirstEscape(rs[1..]) == 0;
    assert FirstEscape(rs) == 1;
    assert rs[..1] == rs && rs[..0] == [];
    assert Written(params, rs) == Ok(params);
  }

  /** set with a non-str, non-dict name is a no-op. */
  lemma SetIgnoresOtherNames(t: AliasTable, py: Builtins, params: Dict, name: Value, value: Value)
    requires !name.DictVal? && !name.Str?
    ensures SetOutcome(t, py, params, SetEntries(name, value)) == (params, None)
  {
    assert Resolutions(t, py, []) == [];
  }

  /**
   * When no entry raises anything but KeyError, set stores what payload
   * yields: every recognised entry under its wire code, the last one winning,
   * and codes nobody names keep their session value.
   */
  lemma SetStoresPayload(t: AliasTable, py: Builtins, params: Dict, entries: Dict)
    requires forall i :: 0 <= i < |entries| ==> !RaisesOther(t, py, entries[i])
    ensures PayloadInto(t, py, params, entries).Ok?
    ensures SetOutcome(t, py, params, entries) == (PayloadInto(t, py, params, entries).value, None)
  {
    var rs := Resolutions(t, py, entries);
    PayloadOutcome(t, py, params, entries);
    ResolutionsAll(t, py, entries);
    FirstEscapeAt(rs, |rs|);
    assert rs[..|rs|] == rs;
  }

  // ---------------------------------------------------------------------------
  // A whole hit.
  // ---------------------------------------------------------------------------

  /** Session parameters whose keys the call-time data lacks are appended after it, in their own order. */
  lemma {:induction false} FilledFresh(data: Dict, params: Dict)
    requires DistinctKeys(params)
    requires forall i :: 0 <= i < |params| ==> !HasKey(data, params[i].0)
    ensures Filled(data, params) == data + params
    decreases |params|
  {
    if params != [] {
      var n := |params| - 1;
      var prefix := params[..n];
      var e := params[n];
      SnocSplit(params);
      assert DistinctKeys(prefix) && forall i :: 0 <= i < n ==> !HasKey(data, prefix[i].0) by {
        assert forall i :: 0 <= i < n ==> prefix[i] == params[i];
      }
      FilledFresh(data, prefix);
      assert !HasKey(data + prefix, e.0) by {
        HasKeyIndex(data + prefix, e.0);
        HasKeyIndex(data, e.0);
        assert forall i :: 0 <= i < |data| ==> (data + prefix)[i] == data[i];
        assert forall j :: 0 <= j < n ==> (data + prefix)[|data| + j] == params[j];
      }
      PutNew(data + prefix, e.0, e.1);
      AppendAssoc(data, prefix, [e]);
    }
  }

  lemma {:induction false} WrittenIdentity(rs: seq<Resolution>, d: Dict)
    requires |rs| == |d| && DistinctKeys(d)
    requires forall i :: 0 <= i < |d| ==> rs[i] == Ok(d[i])
    ensures Written([], rs) == Ok(d)
    decreases |d|
  {
    if d != [] {
      var n := |d| - 1;
      assert DistinctKeys(d[..n]) && forall i :: 0 <= i < n ==> rs[..n][i] == Ok(d[..n][i]) by {
        assert forall i :: 0 <= i < n ==> rs[..n][i] == rs[i] && d[..n][i] == d[i];
      }
      WrittenIdentity(rs[..n], d[..n]);
      assert !HasKey(d[..n], d[n].0) by {
        HasKeyIndex(d[..n], d[n].0);
      }
      PutNew(d[..n], d[n].0, d[n].1);
      WrittenSnocOk([], rs, d[..n], d[n]);
      assert d[..n] + [(d[n].0, d[n].1)] == d by {
        SnocSplit(d);
      }
    }
  }

  /**
   * A dict whose keys are distinct wire codes that resolve to themselves, with
   * values their coercers leave as they are, passes through payload unchanged.
   */
  lemma PayloadIdentity(t: AliasTable, py: Builtins, d: Dict)
    requires DistinctKeys(d)
    requires forall i :: 0 <= i < |d| ==> CoerceParameter(t, py, d[i].0, d[i].1) == Ok(d[i])
    ensures PayloadInto(t, py, [], d) == Ok(d)
  {
    ResolutionsAll(t, py, d);
    WrittenIdentity(Resolutions(t, py, d), d);
  }

  /** The wire codes a pageview from a fresh tracker goes through, registered as the declarations do. */
  ghost predicate PageviewCodes(t: AliasTable) {
    && "t" in t && t["t"] == Entry(SafeUnicode, "t")
    && "dp" in t && t["dp"] == Entry(SafeUnicode, "dp")
    && "v" in t && t["v"] == Entry(IntCast, "v")
    && "tid" in t && t["tid"] == Entry(SafeUnicode, "tid")
    && "cid" in t && t["cid"] == Entry(SafeUnicode, "cid")
  }

  lemma PageviewSlots(path: string, now: real)
    ensures ConsumedOptions(Timestamped([], now), "pageview", [Str(path)]) == [("t", Str("pageview")), ("dp", Str(path))]
  {
    assert Timestamped([], now) == [];
    var typed := Put([], "t", Str("pageview"));
    assert typed == [("t", Str("pageview"))];
    assert Consumed(typed, OptionSequence("pageview")[..0], [Str(path)]) == typed;
    assert !HasKey(typed, "dp");
    PutNew(typed, "dp", Str(path));
  }

  /** The hit a pageview from a fresh tracker assembles, before the payload pass. */
  function PageviewWire(account: string, clientId: string, path: string): Dict {
    [("t", Str("pageview")), ("dp", Str(path)), ("v", Int(1)), ("tid", Str(account)), ("cid", Str(clientId))]
  }

  lemma PageviewAssembled(t: AliasTable, py: Builtins, account: string, clientId: string, generatedId: string,
                          path: string, now: real)
    requires clientId != ""
    ensures var slotted := ConsumedOptions(Timestamped([], now), "pageview", [Str(path)]);
      Merged(t, py, slotted, [Str(path)]) == Ok(slotted) &&
      Filled(slotted, InitialParams(Str(account), Str(clientId), NoneVal, generatedId)) == PageviewWire(account, clientId, path)
  {
    var params: Dict := [("v", Int(1)), ("tid", Str(account)), ("cid", Str(clientId))];
    var slotted: Dict := [("t", Str("pageview")), ("dp", Str(path))];
    assert slotted + params == PageviewWire(account, clientId, path);
    assert InitialParams(Str(account), Str(clientId), NoneVal, generatedId) == params;
    PageviewSlots(path, now);
    MergedWithoutDicts(t, py, slotted, [Str(path)]);
    assert Keys(slotted) == ["t", "dp"];
    FilledFresh(slotted, params);
  }

  lemma PageviewResolves(t: AliasTable, py: Builtins, account: string, clientId: string, path: string)
    requires Pythonic(py) && PageviewCodes(t)
    ensures PayloadInto(t, py, [], PageviewWire(account, clientId, path)) == Ok(PageviewWire(account, clientId, path))
  {
    var hit := PageviewWire(account, clientId, path);
    forall i | 0 <= i < |hit| ensures CoerceParameter(t, py, hit[i].0, hit[i].1) == Ok(hit[i]) {
      RegisteredNameResolves(t, py, hit[i].0, hit[i].1);
    }
    PayloadIdentity(t, py, hit);
  }

  /** The stages of send composed, when none of them raises and the client id is not hashed. */
  lemma HitUnhashed(t: AliasTable, py: Builtins, params: Dict, hittype: string, args: seq<Value>, data: Dict,
                    now: real, merged: Dict, hit: Dict)
    requires hittype in ValidHitTypes
    requires Merged(t, py, ConsumedOptions(Timestamped(data, now), hittype, args), args) == Ok(merged)
    requires PayloadInto(t, py, [], Filled(merged, params)) == Ok(hit)
    ensures Hit(t, py, params, false, hittype, args, data, now) == Ok(hit)
  {
  }

  /**
   * tracker.send("pageview", path) on a fresh tracker: the hit carries the hit
   * type and the page first, then the session's version, account and client id.
   */
  lemma PageviewHit(t: AliasTable, py: Builtins, account: string, clientId: string, generatedId: string,
                    path: string, now: real)
    requires Pythonic(py) && PageviewCodes(t) && clientId != ""
    ensures Hit(t, py, InitialParams(Str(account), Str(clientId), NoneVal, generatedId), false, "pageview", [Str(path)], [], now)
      == Ok(PageviewWire(account, clientId, path))
  {
    var params := InitialParams(Str(account), Str(clientId), NoneVal, generatedId);
    var slotted := ConsumedOptions(Timestamped([], now), "pageview", [Str(path)]);
    var hit := PageviewWire(account, clientId, path);
    PageviewAssembled(t, py, account, clientId, generatedId, path, now);
    PageviewResolves(t, py, account, clientId, path);
    HitUnhashed(t, py, params, "pageview", [Str(path)], [], now, slotted, hit);
  }

  /** The standard declarations register the five codes of a pageview to themselves, whatever came before. */
  lemma StandardPageviewCodes(t: AliasTable)
    ensures PageviewCodes(Declared(t, StandardDecls()))
  {
    StandardHitTypeCode(t);
    StandardPageCode(t);
    StandardVersionCode(t);
    StandardTrackingIdCode(t);
    StandardClientIdCode(t);
  }

  /** The pageview of PageviewHit, through the table the module's declarations build. */
  lemma StandardPageviewHit(t: AliasTable, py: Builtins, account: string, clientId: string, generatedId: string,
                            path: string, now: real)
    requires Pythonic(py) && clientId != ""
    ensures Hit(Declared(t, StandardDecls()), py, InitialParams(Str(account), Str(clientId), NoneVal, generatedId), false,
                "pageview", [Str(path)], [], now)
      == Ok(PageviewWire(account, clientId, path))
  {
    StandardPageviewCodes(t);
    PageviewHit(Declared(t, StandardDecls()), py, account, clientId, generatedId, path, now);
  }
  /** The corrected send of the same pageview: none of the session's codes is named by the call. */
  lemma CallTimePageviewHit(t: AliasTable, py: Builtins, account: string, clientId: string, generatedId: string,
                            path: string, now: real)
    requires Pythonic(py) && PageviewCodes(t) && clientId != ""
    ensures CallTimeHit(t, py, InitialParams(Str(account), Str(clientId), NoneVal, generatedId), false, "pageview", [Str(path)], [], now)
      == Ok(PageviewWire(account, clientId, path))
  {
    var params := InitialParams(Str(account), Str(clientId), NoneVal, generatedId);
    PageviewAssembled(t, py, account, clientId, generatedId, path, now);
    PageviewSessionUncalled(t, account, clientId, generatedId, path, now);
    CallTimeHitIsHit(t, py, params, false, "pageview", [Str(path)], [], now);
    PageviewHit(t, py, account, clientId, generatedId, path, now);
  }

  lemma PageviewSessionUncalled(t: AliasTable, account: string, clientId: string, generatedId: string, path: string, now: real)
    requires PageviewCodes(t) && clientId != ""
    ensures var slotted := ConsumedOptions(Timestamped([], now), "pageview", [Str(path)]);
      var params := InitialParams(Str(account), Str(clientId), NoneVal, generatedId);
      Uncalled(t, slotted, params) == params
  {
    var params := InitialParams(Str(account), Str(clientId), NoneVal, generatedId);
    var slotted: Dict := [("t", Str("pageview")), ("dp", Str(path))];
    PageviewSlots(path, now);
    assert params == [("v", Int(1)), ("tid", Str(account)), ("cid", Str(clientId))];
    assert ResolveName(t, slotted[0].0) == Ok("t") && ResolveName(t, slotted[1].0) == Ok("dp");
    forall i | 0 <= i < |params| ensures !CalledCode(t, slotted, params[i].0) {
    }
    UncalledAll(t, slotted, params);
  }


  /** A primary tracking interface: session parameters and a transport. */
  class Tracker {
    const aliases: AliasRegistry
    const py: Builtins
    const http: HTTPRequest
    const hashClientId: bool
    var params: Dict

    /**
     * Tracker(account, http, client_id, hash_client_id, user_id); an absent
     * or falsy client id is replaced by generatedId, the result of generate_uuid().
     */
    constructor(account: Value, http: HTTPRequest, clientId: Value, hashClientId: bool, userId: Value,
                aliases: AliasRegistry, py: Builtins, generatedId: string)
      ensures this.aliases == aliases && this.py == py && this.http == http && this.hashClientId == hashClientId
      ensures params == InitialParams(account, clientId, userId, generatedId)
      ensures Account() == account
    {
      this.aliases := aliases;
      this.py := py;
      this.http := http;
      this.hashClientId := hashClientId;
      params := InitialParams(account, clientId, userId, generatedId);
      InitialValues(account, clientId, userId, generatedId);
    }

    /** Tracker.account */
    function Account(): Value
      reads this
    {
      Get(params, "tid").GetOr(NoneVal)
    }

    /** tracker[name] */
    function GetItem(name: string): Result<Value>
      reads this, aliases
    {
      Item(aliases.table, params, name)
    }

    /** tracker[name] = value; an error leaves the parameters as they were. */
    method SetItem(name: string, value: Value) returns (error: Option<PyError>)
      modifies this
      ensures Assigned(aliases.table, py, old(params), name, value).Ok? ==>
        params == Assigned(aliases.table, py, old(params), name, value).value && error == None
      ensures Assigned(aliases.table, py, old(params), name, value).Err? ==>
        params == old(params) && error == Some(Assigned(aliases.table, py, old(params), name, value).error)
    {
      var resolved := CoerceParameter(aliases.table, py, name, value);
      match resolved {
        case Err(e) =>
          return Some(e);
        case Ok(p) =>
          params := Put(params, p.0, p.1);
          return None;
      }
    }

    /** del tracker[name]; an error leaves the parameters as they were. */
    method DelItem(name: string) returns (error: Option<PyError>)
      modifies this
      ensures Deleted(aliases.table, old(params), name).Ok? ==>
        params == Deleted(aliases.table, old(params), name).value && error == None
      ensures Deleted(aliases.table, old(params), name).Err? ==>
        params == old(params) && error == Some(Deleted(aliases.table, old(params), name).error)
    {
      var resolved := ResolveName(aliases.table, name);
      match resolved {
        case Err(e) =>
          return Some(e);
        case Ok(c) =>
          if HasKey(params, c) {
            params := Remove(params, c);
          }
          return None;
      }
    }

    /** Tracker.set(name, value), for a dict of names or a single str name. */
    method Set(name: Value, value: Value) returns (raised: Option<PyError>)
      modifies this
      ensures (params, raised) == SetOutcome(aliases.table, py, old(params), SetEntries(name, value))
    {
      var table := aliases.table;
      var entries := SetEntries(name, value);
      ghost var rs := Resolutions(table, py, entries);
      ghost var start := params;
      for i := 0 to |entries|
        invariant Written(start, rs[..i]) == Ok(params)
      {
        var (key, v) := entries[i];
        var resolved := CoerceParameter(table, py, key, v);
        ResolutionAt(table, py, entries, i);
        WrittenStep(start, rs, i);
        match resolved {
          case Ok(p) =>
            params := Put(params, p.0, p.1);
          case Err(e) =>
            if e != KeyError {
              WrittenFirstEscape(start, rs, i);
              return Some(e);
            }
        }
      }
      assert rs[..|rs|] == rs;
      WrittenFirstEscape(start, rs, |rs|);
      return None;
    }

    /** The body of Tracker.send up to the transport call: the hit it assembles, or what it raises. */
    method Assemble(hittype: string, args: seq<Value>, data: Dict, now: real) returns (outcome: Result<Dict>)
      ensures outcome == CallTimeHit(aliases.table, py, params, hashClientId, hittype, args, data, now)
    {
      if hittype !in ValidHitTypes {
        return Err(KeyError);
      }
      var stamped := SetTimestamp(data, now);
      var slotted := ConsumeOptions(stamped, hittype, args);
      var merged := MergeDictArgs(aliases.table, py, slotted, args);
      if merged.Err? {
        return Err(merged.error);
      }
      var filled := FillUncalled(aliases.table, merged.value, params);
      var hit := PayloadPairs(aliases.table, py, [], filled);
      if hit.Err? || !hashClientId {
        return hit;
      }
      PayloadWireValues(aliases.table, py, [], filled, hit.value);
      return HashedClientId(py, hit.value);
    }

    /**
     * Tracker.send(hittype, *args, **data): assembles the hit and hands it to
     * the transport; when assembling raises, the transport is not touched.
     */
    method Send(hittype: string, args: seq<Value>, data: Dict, now: real) returns (outcome: Result<Dict>)
      requires http.Valid()
      modifies http, http.session
      ensures outcome == CallTimeHit(aliases.table, py, params, hashClientId, hittype, args, data, now)
      ensures http.Valid()
      ensures outcome.Ok? ==> http.Sent(outcome.value)
      ensures outcome.Err? ==> unchanged(http, http.session)
    {
      outcome := Assemble(hittype, args, data, now);
      if outcome.Ok? {
        http.Send(outcome.value);
      }
    }
  }
}
