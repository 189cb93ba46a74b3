/**
 * Dial-out requests shared by the two telephony bots: how one configured
 * setting becomes a request to the transport, and how many dialing rounds an
 * attempt counter allows.
 */
module Dialing {
  import opened Wrappers

  /** One configured dial-out target: a dictionary of text fields. */
  type DialoutSetting = map<string, string>

  /** What is handed to the transport's `start_dialout`. */
  datatype DialRequest =
    | PhoneDial(phoneNumber: string, callerId: Option<string>)
    | SipDial(sipUri: string)

  /**
   * The request for one setting: a phone number wins over a SIP URI, a caller
   * id is added only next to a phone number, and a setting with neither is
   * skipped.
   */
  function RequestFor(setting: DialoutSetting): (r: Option<DialRequest>)
    ensures "phoneNumber" in setting ==> r.Some? && r.value.PhoneDial? && r.value.phoneNumber == setting["phoneNumber"]
    ensures r.Some? && r.value.PhoneDial? ==>
              r.value.callerId == (if "callerId" in setting then Some(setting["callerId"]) else None)
    ensures "phoneNumber" !in setting && "sipUri" in setting ==> r == Some(SipDial(setting["sipUri"]))
    ensures r.None? <==> "phoneNumber" !in setting && "sipUri" !in setting
  {
    if "phoneNumber" in setting then
      if "callerId" in setting then Some(PhoneDial(setting["phoneNumber"], Some(setting["callerId"])))
      else Some(PhoneDial(setting["phoneNumber"], None))
    else if "sipUri" in setting then Some(SipDial(setting["sipUri"]))
    else None
  }

  /** One dialing round: the requests for every setting, in list order, skipped settings left out. */
  function DialRequests(settings: seq<DialoutSetting>): (r: seq<DialRequest>)
    ensures |r| <= |settings|
  {
    if settings == [] then []
    else
      var last := RequestFor(settings[|settings| - 1]);
      DialRequests(settings[..|settings| - 1]) + (if last.Some? then [last.value] else [])
  }

  /**
   * A round over two lists of settings is the round over the first followed
   * by the round over the second: requests follow the list order, and a
   * skipped setting leaves no gap.
   */
  lemma {:induction false} DialRequestsAppend(a: seq<DialoutSetting>, b: seq<DialoutSetting>)
    ensures DialRequests(a + b) == DialRequests(a) + DialRequests(b)
    ensures DialRequests([]) == []
    decreases |b|
  {
    if b == [] {
      assert a + b == a;
    } else {
      var ab := a + b;
      var init := b[..|b| - 1];
      assert ab[..|ab| - 1] == a + init;
      assert ab[|ab| - 1] == b[|b| - 1];
      DialRequestsAppend(a, init);
    }
  }

  /** A single setting gives its request, or nothing when it names no target. */
  lemma DialRequestsSingle(setting: DialoutSetting)
    ensures DialRequests([setting]) == (if RequestFor(setting).Some? then [RequestFor(setting).value] else [])
  {
    assert [setting][..0] == [];
  }

  /** Extending a prefix of the settings by one extends its round by that setting's request, if any. */
  lemma DialRequestsStep(settings: seq<DialoutSetting>, i: nat)
    requires i < |settings|
    ensures var request := RequestFor(settings[i]);
            DialRequests(settings[..i + 1]) == DialRequests(settings[..i]) + (if request.Some? then [request.value] else [])
  {
    assert settings[..i + 1][..i] == settings[..i];
  }

  /** A round issues one request per setting when every setting names a target. */
  lemma {:induction false} EveryTargetDialed(settings: seq<DialoutSetting>)
    requires forall i :: 0 <= i < |settings| ==> "phoneNumber" in settings[i] || "sipUri" in settings[i]
    ensures |DialRequests(settings)| == |settings|
    ensures forall i :: 0 <= i < |settings| ==> DialRequests(settings)[i] == RequestFor(settings[i]).value
  {
    if settings != [] {
      var init := settings[..|settings| - 1];
      assert forall i :: 0 <= i < |init| ==> init[i] == settings[i];
      EveryTargetDialed(init);
    }
  }

  /** `n` dialing rounds, one after another. */
  function Rounds(round: seq<DialRequest>, n: nat): seq<DialRequest>
  {
    if n == 0 then [] else Rounds(round, n - 1) + round
  }

  lemma {:induction false} RoundsLength(round: seq<DialRequest>, n: nat)
    ensures |Rounds(round, n)| == n * |round|
  {
    if n > 0 {
      RoundsLength(round, n - 1);
    }
  }

  /**
   * How many rounds have dialed after `count` calls to start the dial-out:
   * each call bumps the counter first and dials only while the counter has
   * not passed the maximum.
   */
  function DialingRounds(count: nat, maxAttempts: int): (n: nat)
    ensures n <= count
    ensures maxAttempts >= 0 ==> n <= maxAttempts
    ensures maxAttempts < 0 ==> n == 0
    ensures count <= maxAttempts ==> n == count
  {
    if count <= maxAttempts then count
    else if maxAttempts < 0 then 0
    else maxAttempts
  }

  /** However often the dial-out is started or retried, at most `maxAttempts` rounds are issued. */
  lemma BoundedDialing(round: seq<DialRequest>, count: nat, maxAttempts: int)
    ensures |Rounds(round, DialingRounds(count, maxAttempts))|
         <= (if maxAttempts < 0 then 0 else maxAttempts) * |round|
  {
    var n := DialingRounds(count, maxAttempts);
    RoundsLength(round, n);
    var m := if maxAttempts < 0 then 0 else maxAttempts;
    assert n <= m;
    MulMono(n, m, |round|);
  }

  lemma MulMono(a: nat, b: nat, c: nat)
    requires a <= b
    ensures a * c <= b * c
  {
  }
}
