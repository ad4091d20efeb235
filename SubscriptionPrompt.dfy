/**
 * The subscribe prompt of src/components/SubscriptionPrompt.jsx: when it
 * shows itself, and what pressing "subscribe" asks of the browser and the
 * server. Service-worker registration, the permission dialog, the push
 * service and the network are inputs: each method takes their answers as
 * parameters.
 */
module SubscriptionPrompt {
  import opened JsValues
  import opened Base64Url

  /** `Notification.permission` and the answer of `Notification.requestPermission()`. */
  datatype Permission = Default | Granted | Denied

  /** The outside calls `handleSubscribe` makes, in the order it makes them. */
  datatype PromptCall =
    | RequestPermission
    | FetchVapidKey
    | PushSubscribe(applicationServerKey: seq<byte>)
    | PostSubscription

  /** The calls one press of the button makes, and whether it hides the prompt. */
  datatype Attempt = Attempt(calls: seq<PromptCall>, hides: bool)

  /**
   * One `handleSubscribe` with a registration present: ask for permission;
   * on "granted" fetch the VAPID key, decode it, subscribe with it and post
   * the subscription, stopping at the first step that throws or rejects.
   * Any other answer hides the prompt, and so does a successful post.
   */
  function SubscribeAttempt(answer: Permission, vapidKey: Settled<string>, pushOk: bool, postOk: bool): (r: Attempt)
    ensures r.hides <==>
      (answer != Granted || (vapidKey.Fulfilled? && KeyBytes(vapidKey.value).Some? && pushOk && postOk))
    ensures PostSubscription in r.calls ==>
      answer == Granted && vapidKey.Fulfilled? && KeyBytes(vapidKey.value).Some? && pushOk
    ensures forall k :: PushSubscribe(k) in r.calls ==>
      answer == Granted && vapidKey.Fulfilled? && KeyBytes(vapidKey.value) == Some(k)
    ensures FetchVapidKey in r.calls <==> answer == Granted
  {
    if answer != Granted then Attempt([RequestPermission], true)
    else if vapidKey.Rejected? then Attempt([RequestPermission, FetchVapidKey], false)
    else
      match KeyBytes(vapidKey.value)
      case None => Attempt([RequestPermission, FetchVapidKey], false)
      case Some(key) =>
        if !pushOk then Attempt([RequestPermission, FetchVapidKey, PushSubscribe(key)], false)
        else Attempt([RequestPermission, FetchVapidKey, PushSubscribe(key), PostSubscription], postOk)
  }

  /**
   * Every key fetch directly follows a permission request, every push
   * subscription a key fetch, and every post a push subscription.
   */
  predicate WellOrdered(calls: seq<PromptCall>)
  {
    && (forall i :: 0 <= i < |calls| && calls[i] == FetchVapidKey ==> 0 < i && calls[i - 1] == RequestPermission)
    && (forall i :: 0 <= i < |calls| && calls[i].PushSubscribe? ==> 0 < i && calls[i - 1] == FetchVapidKey)
    && (forall i :: 0 <= i < |calls| && calls[i] == PostSubscription ==> 0 < i && calls[i - 1].PushSubscribe?)
  }

  /** The first `n` calls of a complete attempt that subscribes with `key`. */
  function Stages(key: seq<byte>, n: nat): seq<PromptCall>
    requires 1 <= n <= 4
  {
    [RequestPermission, FetchVapidKey, PushSubscribe(key), PostSubscription][..n]
  }

  /**
   * Appending a well-ordered history that opens with a permission request
   * keeps the whole history well ordered.
   */
  lemma ConcatKeepsOrder(x: seq<PromptCall>, y: seq<PromptCall>)
    requires WellOrdered(x) && WellOrdered(y)
    requires y == [] || y[0] == RequestPermission
    ensures WellOrdered(x + y)
  {
    var xy := x + y;
    forall i | 0 <= i < |xy| && !xy[i].RequestPermission?
      ensures 0 < i && (i > |x| ==> xy[i - 1] == y[i - |x| - 1]) && (i <= |x| ==> xy[i - 1] == x[i - 1])
    {
      if i >= |x| {
        assert xy[i] == y[i - |x|];
      }
    }
  }

  /** Each prefix of a complete attempt is well ordered. */
  lemma StagesOrdered(key: seq<byte>, n: nat)
    requires 1 <= n <= 4
    ensures WellOrdered(Stages(key, n))
    ensures Stages(key, n)[0] == RequestPermission
  {
  }

  /** The calls of any attempt are the first steps of a complete one. */
  lemma AttemptIsStages(answer: Permission, vapidKey: Settled<string>, pushOk: bool, postOk: bool)
    returns (key: seq<byte>, n: nat)
    ensures 1 <= n <= 4 && SubscribeAttempt(answer, vapidKey, pushOk, postOk).calls == Stages(key, n)
  {
    if answer != Granted {
      key, n := [], 1;
    } else if vapidKey.Rejected? || KeyBytes(vapidKey.value).None? {
      key, n := [], 2;
    } else {
      key := KeyBytes(vapidKey.value).value;
      n := if pushOk then 4 else 3;
    }
  }

  /** Appending the calls of one attempt keeps the history well ordered. */
  lemma AttemptKeepsOrder(calls: seq<PromptCall>, answer: Permission, vapidKey: Settled<string>, pushOk: bool, postOk: bool)
    requires WellOrdered(calls)
    ensures WellOrdered(calls + SubscribeAttempt(answer, vapidKey, pushOk, postOk).calls)
  {
    var key, n := AttemptIsStages(answer, vapidKey, pushOk, postOk);
    StagesOrdered(key, n);
    ConcatKeepsOrder(calls, Stages(key, n));
  }

  /** The component's state: `isVisible`, whether `swRegistration` is set, and the outside calls made so far. */
  class Prompt {
    var isVisible: bool
    var registered: bool
    var calls: seq<PromptCall>

    ghost predicate Valid()
      reads this
    {
      WellOrdered(calls)
    }

    /** Mounting: hidden, no registration, nothing asked yet. */
    constructor ()
      ensures Valid() && !isVisible && !registered && calls == []
    {
      isVisible := false;
      registered := false;
      calls := [];
    }

    /**
     * `checkSubscription`: show the prompt when the registration has no
     * push subscription and permission is not "denied"; otherwise leave it
     * as it is.
     */
    method CheckSubscription(hasSubscription: bool, permission: Permission)
      modifies this`isVisible
      ensures isVisible == (old(isVisible) || (!hasSubscription && permission != Denied))
    {
      if !hasSubscription && permission != Denied {
        isVisible := true;
      }
    }

    /**
     * The mount effect: where service workers and the Push API are
     * supported and registering `/sw.js` succeeds, keep the registration
     * and check for an existing subscription.
     */
    method RegisterServiceWorker(supported: bool, registrationOk: bool, hasSubscription: bool, permission: Permission)
      modifies this
      ensures calls == old(calls)
      ensures registered == (old(registered) || (supported && registrationOk))
      ensures isVisible == (old(isVisible) || (supported && registrationOk && !hasSubscription && permission != Denied))
    {
      if supported && registrationOk {
        registered := true;
        CheckSubscription(hasSubscription, permission);
      }
    }

    /**
     * `handleSubscribe`: without a registration it returns at once;
     * otherwise it makes the calls of one attempt and hides the prompt
     * when the attempt says so. Exceptions are caught and only logged.
     */
    method HandleSubscribe(answer: Permission, vapidKey: Settled<string>, pushOk: bool, postOk: bool)
      requires Valid()
      modifies this
      ensures Valid() && registered == old(registered)
      ensures !old(registered) ==> calls == old(calls) && isVisible == old(isVisible)
      ensures old(registered) ==>
        var attempt := SubscribeAttempt(answer, vapidKey, pushOk, postOk);
        calls == old(calls) + attempt.calls && isVisible == (old(isVisible) && !attempt.hides)
    {
      if !registered {
        return;
      }
      AttemptKeepsOrder(calls, answer, vapidKey, pushOk, postOk);
      // Each branch ends where the corresponding await throws or the flow finishes.
      var made: seq<PromptCall>, hides: bool;
      if answer != Granted {
        made, hides := [RequestPermission], true;
      } else if vapidKey.Rejected? {
        made, hides := [RequestPermission, FetchVapidKey], false;
      } else {
        var key := UrlBase64ToUint8Array(vapidKey.value);
        if key.Thrown? {
          made, hides := [RequestPermission, FetchVapidKey], false;
        } else if !pushOk {
          made, hides := [RequestPermission, FetchVapidKey, PushSubscribe(key.value[..])], false;
        } else {
          made, hides := [RequestPermission, FetchVapidKey, PushSubscribe(key.value[..]), PostSubscription], postOk;
        }
      }
      assert Attempt(made, hides) == SubscribeAttempt(answer, vapidKey, pushOk, postOk);
      calls := calls + made;
      if hides {
        isVisible := false;
      }
    }
  }
}
