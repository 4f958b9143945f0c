/**
 * The handler registry of CSAuthProvider: four named slots (`loginStart`,
 * `loginSuccess`, `logoutSuccess`, `locationChange`), each null until the host
 * sets it through `setHandler` or `$get` fills it with the built-in default.
 */
module HandlerRegistry {
  import opened Wrappers

  /** A function supplied by the host application, known only by its identity. */
  datatype Callback = Callback(name: string)

  /** What a filled slot holds: the built-in default or a host function. */
  datatype Handler = Default | Custom(callback: Callback)

  /** The second argument of `setHandler`: a function, or any other JavaScript value. */
  datatype Value = Function(callback: Callback) | NotAFunction

  /** The three errors `setHandler` throws. */
  datatype HandlerError =
    | NotHandlePrefixed        // the key does not start with 'handle'
    | UnknownHandler(key: string)  // the key is not a property of the handlers object
    | NotFunction              // the value is not a function

  const LoginStartSlot := "loginStart"
  const LoginSuccessSlot := "loginSuccess"
  const LogoutSuccessSlot := "logoutSuccess"
  const LocationChangeSlot := "locationChange"

  /** The own properties of the handlers object; no operation adds or removes one. */
  const SlotNames: set<string> := {LoginStartSlot, LoginSuccessSlot, LogoutSuccessSlot, LocationChangeSlot}

  /** The handlers object: each slot's function, `None` while it is null. */
  type Slots = map<string, Option<Handler>>

  /** The handlers object as the provider creates it: every slot null. */
  const Unconfigured: Slots :=
    map[LoginStartSlot := None, LoginSuccessSlot := None, LogoutSuccessSlot := None, LocationChangeSlot := None]

  /** The four slots once `$get` has filled them: what the service calls. */
  datatype Handlers = Handlers(loginStart: Handler, loginSuccess: Handler, logoutSuccess: Handler, locationChange: Handler)

  /** `key.substr(0, 6) === 'handle'`. */
  predicate HasHandlePrefix(key: string)
  {
    |key| >= 6 && key[..6] == "handle"
  }

  /**
   * The checks of `setHandler` as written: the key must start with 'handle', must
   * be an own property of the handlers object, and the value must be a function.
   * On success, the property written is the key itself.
   */
  function CheckHandlerAsWritten(key: string, foo: Value, own: set<string>): (r: Result<string, HandlerError>)
    ensures r.Ok? ==> r.value == key && key in own && HasHandlePrefix(key) && foo.Function?
  {
    if !HasHandlePrefix(key) then Err(NotHandlePrefixed)
    else if key !in own then Err(UnknownHandler(key))
    else if !foo.Function? then Err(NotFunction)
    else Ok(key)
  }

  /**
   * No key passes the checks as written: every slot name starts with 'l', so
   * none starts with 'handle'; the check rejects every call on the handlers object.
   */
  lemma AsWrittenRejectsEveryKey(key: string, foo: Value)
    ensures CheckHandlerAsWritten(key, foo, SlotNames).Err?
  {
    if HasHandlePrefix(key) {
      assert key[0] == key[..6][0] == 'h';
      assert forall slot :: slot in SlotNames ==> slot[0] == 'l';
    }
  }

  /**
   * The names the provider documents (`handleLoginStart`, `handleLoginSuccess`)
   * fail the property check as written, and the bare slot names fail the prefix check.
   */
  lemma DocumentedNamesRejected(cb: Callback)
    ensures CheckHandlerAsWritten("handleLoginStart", Function(cb), SlotNames) == Err(UnknownHandler("handleLoginStart"))
    ensures CheckHandlerAsWritten("loginStart", Function(cb), SlotNames) == Err(NotHandlePrefixed)
  {
    AsWrittenRejectsEveryKey("handleLoginStart", Function(cb));
    assert "handleLoginStart"[..6] == "handle";
    assert "loginStart"[0] == 'l';
  }

  function Lower(c: char): char
  {
    if 'A' <= c <= 'Z' then (c as int + 32) as char else c
  }

  function Upper(c: char): char
  {
    if 'a' <= c <= 'z' then (c as int - 32) as char else c
  }

  /** The external name of a slot: 'handle' followed by the slot name with its first letter capitalised. */
  function HandlerName(slot: string): (name: string)
    requires |slot| >= 1
    ensures HasHandlePrefix(name) && |name| == |slot| + 6
  {
    "handle" + [Upper(slot[0])] + slot[1..]
  }

  /** The slot an external name designates: `handleLoginStart` designates `loginStart`. */
  function SlotOf(key: string): (slot: Option<string>)
    ensures slot.Some? ==> |slot.value| >= 1 && HandlerName(slot.value) == key
  {
    if HasHandlePrefix(key) && |key| > 6 && 'A' <= key[6] <= 'Z' then Some([Lower(key[6])] + key[7..])
    else None
  }

  /**
   * The checks of `setHandler` as the documentation uses it: the key must start
   * with 'handle', must name an own property of the handlers object, and the
   * value must be a function. On success, the property written is the slot named.
   */
  function CheckHandler(key: string, foo: Value, own: set<string>): (r: Result<string, HandlerError>)
    ensures r.Ok? ==> r.value in own && |r.value| >= 1 && HandlerName(r.value) == key && foo.Function?
  {
    if !HasHandlePrefix(key) then Err(NotHandlePrefixed)
    else if SlotOf(key).None? || SlotOf(key).value !in own then Err(UnknownHandler(key))
    else if !foo.Function? then Err(NotFunction)
    else Ok(SlotOf(key).value)
  }

  /** Every slot whose name starts with a lower-case letter is reachable under its external name. */
  lemma HandlerNameAccepted(slot: string, cb: Callback, own: set<string>)
    requires slot in own && |slot| >= 1 && 'a' <= slot[0] <= 'z'
    ensures CheckHandler(HandlerName(slot), Function(cb), own) == Ok(slot)
  {
    var key := HandlerName(slot);
    assert key[6] == Upper(slot[0]) && key[7..] == slot[1..];
    assert Lower(Upper(slot[0])) == slot[0];
    assert [slot[0]] + slot[1..] == slot;
  }

  /** Only external names of slots, with a function, are accepted, and they write the slot they name. */
  lemma OnlyHandlerNamesAccepted(key: string, foo: Value, own: set<string>)
    requires CheckHandler(key, foo, own).Ok?
    ensures var slot := CheckHandler(key, foo, own).value;
            slot in own && |slot| >= 1 && 'a' <= slot[0] <= 'z' && key == HandlerName(slot) && foo.Function?
  {
    var slot := CheckHandler(key, foo, own).value;
    assert slot[0] == Lower(key[6]) && slot[1..] == key[7..];
    assert Upper(Lower(key[6])) == key[6];
    assert key == key[..6] + [key[6]] + key[7..];
  }

  /** Under the corrected check, the documented names set the slots they name. */
  lemma DocumentedNamesAccepted(cb: Callback)
    ensures CheckHandler("handleLoginStart", Function(cb), SlotNames) == Ok(LoginStartSlot)
    ensures CheckHandler("handleLoginSuccess", Function(cb), SlotNames) == Ok(LoginSuccessSlot)
  {
    assert Upper('l') == 'L';
    HandlerNameAccepted(LoginStartSlot, cb, SlotNames);
    assert LoginStartSlot[0] == 'l' && LoginStartSlot[1..] == "oginStart";
    assert HandlerName(LoginStartSlot) == "handle" + "L" + "oginStart" == "handleLoginStart";
    HandlerNameAccepted(LoginSuccessSlot, cb, SlotNames);
    assert LoginSuccessSlot[0] == 'l' && LoginSuccessSlot[1..] == "oginSuccess";
    assert HandlerName(LoginSuccessSlot) == "handle" + "L" + "oginSuccess" == "handleLoginSuccess";
  }

  /** Each of the four slots has an external name, so the corrected check can set each of them. */
  lemma EverySlotSettable(slot: string, cb: Callback)
    requires slot in SlotNames
    ensures |slot| >= 1 && CheckHandler(HandlerName(slot), Function(cb), SlotNames) == Ok(slot)
  {
    assert slot[0] == 'l';
    HandlerNameAccepted(slot, cb, SlotNames);
  }

  /** `handlers.x = handlers.x || default` for every slot, as `$get` does. */
  function Fill(slots: Slots): (filled: Slots)
    ensures filled.Keys == slots.Keys
    ensures forall k :: k in filled ==> filled[k].Some? && (slots[k].Some? ==> filled[k] == slots[k])
  {
    map k | k in slots :: Some(if slots[k].Some? then slots[k].value else Default)
  }

  /** The four handlers the service calls: a host function where one was set, the default elsewhere. */
  function Resolve(slots: Slots): (hs: Handlers)
    requires slots.Keys == SlotNames
    ensures hs.loginStart == if slots[LoginStartSlot].Some? then slots[LoginStartSlot].value else Default
    ensures hs.loginSuccess == if slots[LoginSuccessSlot].Some? then slots[LoginSuccessSlot].value else Default
    ensures hs.logoutSuccess == if slots[LogoutSuccessSlot].Some? then slots[LogoutSuccessSlot].value else Default
    ensures hs.locationChange == if slots[LocationChangeSlot].Some? then slots[LocationChangeSlot].value else Default
  {
    var filled := Fill(slots);
    Handlers(filled[LoginStartSlot].value, filled[LoginSuccessSlot].value,
             filled[LogoutSuccessSlot].value, filled[LocationChangeSlot].value)
  }

  /** Filling twice fills nothing more: a slot resolves to the same function every time it is read. */
  lemma FillIdempotent(slots: Slots)
    requires slots.Keys == SlotNames
    ensures Fill(Fill(slots)) == Fill(slots)
    ensures Resolve(Fill(slots)) == Resolve(slots)
  {
  }

  /** Setting only `loginStart` leaves the other three slots to their defaults. */
  lemma OnlyLoginStartSet(cb: Callback)
    ensures Unconfigured[LoginStartSlot := Some(Custom(cb))].Keys == SlotNames
    ensures Resolve(Unconfigured[LoginStartSlot := Some(Custom(cb))]) == Handlers(Custom(cb), Default, Default, Default)
  {
  }

  /** With nothing configured, every slot resolves to its default. */
  lemma UnconfiguredResolvesToDefaults()
    ensures Unconfigured.Keys == SlotNames
    ensures Resolve(Unconfigured) == Handlers(Default, Default, Default, Default)
  {
  }
}
