/**
 * The transient cookie store as `AuthorizeUrl.build` and
 * `RequestProcessor.process` call it: `storeState`/`storeNonce` take a
 * SameSite policy and a legacy-cookie flag, and `getState`/`getNonce` return
 * an optional value and consume the cookie. How the store renders these
 * calls as headers is not visible, so they are kept as a log of calls, and
 * the browser's side as a map from slot to the cookie it holds, which the
 * log updates and from which the browser picks what the callback carries.
 */
module CallbackStore {
  import opened Wrappers

  datatype SameSite = SameSiteLax | SameSiteStrict | SameSiteNone

  /** The two transient values: the anti-CSRF state and the ID-token nonce. */
  datatype Slot = StateSlot | NonceSlot

  /** One store call, as the response will carry it to the browser. */
  datatype StoreCall =
    | Stored(slot: Slot, value: Option<string>, sameSite: SameSite, legacy: bool)
    | Consumed(slot: Slot, legacy: bool)

  /** A cookie as the browser holds it: its value and the SameSite policy it was set with. */
  datatype Held = Held(value: string, sameSite: SameSite)

  /** The effect of one call on the cookies the browser holds: a store sets (a null value sets nothing usable), a read expires. */
  function Step(jar: map<Slot, Held>, call: StoreCall): (r: map<Slot, Held>)
  {
    match call
    case Stored(slot, Some(v), sameSite, _) => jar[slot := Held(v, sameSite)]
    case Stored(slot, None, _, _) => jar - {slot}
    case Consumed(slot, _) => jar - {slot}
  }

  /** The cookies the browser holds after it has applied a response's calls in order. */
  function Apply(jar: map<Slot, Held>, calls: seq<StoreCall>): (r: map<Slot, Held>)
    decreases |calls|
  {
    if calls == [] then jar else Apply(Step(jar, calls[0]), calls[1..])
  }

  lemma {:induction false} ApplyAppend(jar: map<Slot, Held>, a: seq<StoreCall>, b: seq<StoreCall>)
    ensures Apply(jar, a + b) == Apply(Apply(jar, a), b)
    decreases |a|
  {
    if a == [] {
      assert a + b == b;
    } else {
      assert (a + b)[1..] == a[1..] + b;
      ApplyAppend(Step(jar, a[0]), a[1..], b);
    }
  }

  /** Whether `call` stores into or expires `slot`. */
  predicate Touches(call: StoreCall, slot: Slot)
  {
    call.slot == slot
  }

  /** Calls that leave a slot alone leave its value in the browser alone. */
  lemma {:induction false} ApplyUntouched(jar: map<Slot, Held>, calls: seq<StoreCall>, slot: Slot)
    requires forall i :: 0 <= i < |calls| ==> !Touches(calls[i], slot)
    ensures slot in Apply(jar, calls) <==> slot in jar
    ensures slot in jar ==> Apply(jar, calls)[slot] == jar[slot]
    decreases |calls|
  {
    if calls != [] {
      ApplyUntouched(Step(jar, calls[0]), calls[1..], slot);
    }
  }

  /**
   * Round trip through the browser: after a response whose last call for a
   * slot stores a non-null value, the browser holds exactly that value, under
   * the policy it was stored with.
   */
  lemma LastStoreWins(jar: map<Slot, Held>, calls: seq<StoreCall>, i: nat, v: string)
    requires i < |calls| && calls[i].Stored? && calls[i].value == Some(v)
    requires forall j :: i < j < |calls| ==> !Touches(calls[j], calls[i].slot)
    ensures calls[i].slot in Apply(jar, calls) && Apply(jar, calls)[calls[i].slot] == Held(v, calls[i].sameSite)
  {
    var slot := calls[i].slot;
    assert calls == calls[..i] + [calls[i]] + calls[i + 1..];
    ApplyAppend(jar, calls[..i] + [calls[i]], calls[i + 1..]);
    ApplyAppend(jar, calls[..i], [calls[i]]);
    ApplyUntouched(Apply(jar, calls[..i + 1]), calls[i + 1..], slot);
    assert calls[..i] + [calls[i]] == calls[..i + 1];
  }

  /** After a response whose last call for a slot expires it, the browser no longer holds it. */
  lemma LastConsumeClears(jar: map<Slot, Held>, calls: seq<StoreCall>, i: nat)
    requires i < |calls| && calls[i].Consumed?
    requires forall j :: i < j < |calls| ==> !Touches(calls[j], calls[i].slot)
    ensures calls[i].slot !in Apply(jar, calls)
  {
    var slot := calls[i].slot;
    assert calls == calls[..i] + [calls[i]] + calls[i + 1..];
    ApplyAppend(jar, calls[..i] + [calls[i]], calls[i + 1..]);
    ApplyAppend(jar, calls[..i], [calls[i]]);
    ApplyUntouched(Apply(jar, calls[..i + 1]), calls[i + 1..], slot);
    assert calls[..i] + [calls[i]] == calls[..i + 1];
  }

  /**
   * The cookies the browser attaches to the provider's callback, which is
   * always a cross-site navigation: a `SameSite=None` cookie is always sent,
   * a `Lax` one only when the callback is a top-level GET (not a form POST),
   * a `Strict` one never.
   */
  function Sent(jar: map<Slot, Held>, formPost: bool): (r: map<Slot, string>)
    ensures forall slot :: slot in r <==>
      slot in jar && (jar[slot].sameSite == SameSiteNone || (jar[slot].sameSite == SameSiteLax && !formPost))
    ensures forall slot :: slot in r ==> r[slot] == jar[slot].value
  {
    map slot | slot in jar && (jar[slot].sameSite == SameSiteNone || (jar[slot].sameSite == SameSiteLax && !formPost)) :: jar[slot].value
  }

  /**
   * The store as seen during one request/response: the transient values the
   * request still carries, and the calls made so far for the response.
   */
  class TransientStore {
    var jar: map<Slot, string>
    var calls: seq<StoreCall>

    constructor (jar: map<Slot, string>)
      ensures this.jar == jar && calls == []
    {
      this.jar := jar;
      calls := [];
    }

    method StoreState(state: Option<string>, sameSite: SameSite, legacy: bool)
      modifies this
      ensures jar == old(jar)
      ensures calls == old(calls) + [Stored(StateSlot, state, sameSite, legacy)]
    {
      calls := calls + [Stored(StateSlot, state, sameSite, legacy)];
    }

    method StoreNonce(nonce: Option<string>, sameSite: SameSite, legacy: bool)
      modifies this
      ensures jar == old(jar)
      ensures calls == old(calls) + [Stored(NonceSlot, nonce, sameSite, legacy)]
    {
      calls := calls + [Stored(NonceSlot, nonce, sameSite, legacy)];
    }

    /** The state the request carried, if any; it is expired whether present or not, so a second read in this request finds nothing. */
    method GetState(legacy: bool) returns (v: Option<string>)
      modifies this
      ensures v == Lookup(old(jar), StateSlot)
      ensures jar == old(jar) - {StateSlot} && StateSlot !in jar
      ensures calls == old(calls) + [Consumed(StateSlot, legacy)]
    {
      v := Lookup(jar, StateSlot);
      jar := jar - {StateSlot};
      calls := calls + [Consumed(StateSlot, legacy)];
    }

    /** The nonce the request carried, if any; expired as `GetState` expires the state. */
    method GetNonce(legacy: bool) returns (v: Option<string>)
      modifies this
      ensures v == Lookup(old(jar), NonceSlot)
      ensures jar == old(jar) - {NonceSlot} && NonceSlot !in jar
      ensures calls == old(calls) + [Consumed(NonceSlot, legacy)]
    {
      v := Lookup(jar, NonceSlot);
      jar := jar - {NonceSlot};
      calls := calls + [Consumed(NonceSlot, legacy)];
    }
  }
}
