/**
 * Rest/Ratelimit.swift: per-bucket rate-limit state read from Discord's
 * response headers, and the limiter that answers how long a request on a
 * route must wait. Times are integer milliseconds since 1970 and the clock
 * is the parameter `now`; header numbers are read as decimals (sign,
 * fraction and exponent) truncated to thousandths.
 */
module Ratelimit {
  import opened Wrappers
  import opened Decimal

  const RemainingHeader: string := "x-ratelimit-remaining"
  const ResetHeader: string := "x-ratelimit-reset"
  const GlobalHeader: string := "x-ratelimit-global"
  const GlobalBucket: string := "global"

  /** A route as the limiter sees it: the bucket it is limited under and its endpoint. */
  datatype AnyRoute = AnyRoute(bucket: string, endpoint: string)

  /** The route `==`: two routes are the same route exactly when their buckets are. */
  predicate SameRoute(a: AnyRoute, b: AnyRoute) {
    a.bucket == b.bucket
  }

  /** `RouteState`: `remaining` in thousandths of a request, `resetTime` in milliseconds. */
  datatype RouteState = RouteState(route: string, resetTime: int, remaining: int)

  /** The response's header fields. */
  type Headers = map<string, string>

  /** The index of the first character of `s` that is one of `stops`, or `|s|` when there is none. */
  function IndexOf(s: string, stops: set<char>): (i: nat)
    ensures i <= |s|
    ensures i < |s| ==> s[i] in stops
    ensures forall j | 0 <= j < i :: s[j] !in stops
  {
    if |s| == 0 || s[0] in stops then 0 else 1 + IndexOf(s[1..], stops)
  }

  /** `d × 10^shift`, truncated toward zero when the shift is negative. */
  function Scaled(d: nat, shift: int): nat
    decreases if shift >= 0 then shift else -shift
  {
    if shift == 0 then d
    else if shift > 0 then Scaled(10 * d, shift - 1)
    else Scaled(d / 10, shift + 1)
  }

  lemma ScaledByThousand(d: nat)
    ensures Scaled(d, 3) == d * 1000
  {
    assert Scaled(d, 3) == Scaled(10 * d, 2) == Scaled(100 * d, 1) == Scaled(1000 * d, 0);
  }

  /** An exponent: an optional sign and one or more digits. */
  function SignedDigits(x: string): (r: Option<int>)
    ensures |x| > 0 && AllDigits(x) ==> r == Some(DigitsValue(x) as int)
  {
    var signed := |x| >= 1 && (x[0] == '+' || x[0] == '-');
    var digits := if signed then x[1..] else x;
    if |digits| == 0 || !AllDigits(digits) then None
    else if signed && x[0] == '-' then Some(0 - DigitsValue(digits) as int)
    else Some(DigitsValue(digits))
  }

  /** The characters that start an exponent. */
  const ExponentMarks: set<char> := {'e', 'E'}

  /** Digits with at most one `.` among them: their value, and how many digits follow the point. */
  datatype Mantissa = Mantissa(digits: nat, fractionDigits: nat)

  /** `digits`, `digits.`, `.digits` or `digits.digits`, with at least one digit in all. */
  function ReadMantissa(m: string): (r: Option<Mantissa>)
    ensures |m| > 0 && AllDigits(m) ==> r == Some(Mantissa(DigitsValue(m), 0))
  {
    var dot := IndexOf(m, {'.'});
    var whole := m[..dot];
    var frac := if dot < |m| then m[dot + 1..] else "";
    assert AllDigits(m) ==> dot == |m| && whole == m && whole + frac == m;
    if |whole| + |frac| == 0 || !AllDigits(whole) || !AllDigits(frac) then None
    else
      assert AllDigits(whole + frac);
      Some(Mantissa(DigitsValue(whole + frac), |frac|))
  }

  /** An unsigned decimal with an optional exponent, in thousandths truncated toward zero. */
  function UnsignedThousandths(u: string): (r: Option<nat>)
    ensures |u| > 0 && AllDigits(u) ==> r == Some(DigitsValue(u) * 1000)
  {
    var e := IndexOf(u, ExponentMarks);
    var exponent := if e < |u| then SignedDigits(u[e + 1..]) else Some(0);
    assert AllDigits(u) ==> e == |u| && u[..e] == u;
    ScaledByThousand(if AllDigits(u) then DigitsValue(u) else 0);
    match (ReadMantissa(u[..e]), exponent)
    case (Some(m), Some(x)) => Some(Scaled(m.digits, x - m.fractionDigits + 3))
    case _ => None
  }

  /**
   * `Double(_:)` of a header value in its decimal form, scaled by 1000 and
   * truncated toward zero: an optional sign, digits with at most one `.`
   * anywhere among them (at least one digit in all), and an optional
   * exponent of `e` or `E`, an optional sign and digits.
   */
  function ParseThousandths(s: string): (r: Option<int>)
    ensures |s| > 0 && AllDigits(s) ==> r == Some(DigitsValue(s) * 1000)
    ensures |s| == 0 ==> r.None?
    ensures r.Some? && r.value < 0 ==> s[0] == '-'
  {
    if |s| == 0 then None
    else if s[0] == '+' || s[0] == '-' then
      match UnsignedThousandths(s[1..])
      case None => None
      case Some(v) => Some(if s[0] == '-' then 0 - v else v)
    else
      match UnsignedThousandths(s)
      case None => None
      case Some(v) => Some(v)
  }

  /** A leading `+` changes nothing and a leading `-` negates the value. */
  lemma SignNegates(s: string)
    requires |s| > 0 && s[0] != '+' && s[0] != '-'
    ensures ParseThousandths("+" + s) == ParseThousandths(s)
    ensures ParseThousandths("-" + s).Some? <==> ParseThousandths(s).Some?
    ensures ParseThousandths(s).Some? ==> ParseThousandths("-" + s) == Some(0 - ParseThousandths(s).value)
  {
    assert ("+" + s)[0] == '+' && ("+" + s)[1..] == s;
    assert ("-" + s)[0] == '-' && ("-" + s)[1..] == s;
  }

  /** `Double(_:)` reads a point with no digits before it or none after it. */
  lemma PointForms()
    ensures ParseThousandths(".5") == Some(500)
    ensures ParseThousandths("1.") == Some(1000)
  {
    assert IndexOf(".5", ExponentMarks) == 2;
    assert IndexOf(".5", {'.'}) == 0;
    assert ".5"[..0] == "" && ".5"[1..] == "5" && "" + "5" == "5";
    assert ReadMantissa(".5") == Some(Mantissa(5, 1));
    assert Scaled(5, 2) == 500;
    assert IndexOf("1.", ExponentMarks) == 2;
    assert IndexOf("1.", {'.'}) == 1;
    assert "1."[..1] == "1" && "1."[2..] == "" && "1" + "" == "1";
    assert ReadMantissa("1.") == Some(Mantissa(1, 0));
    assert "1."[..2] == "1.";
    ScaledByThousand(1);
    assert UnsignedThousandths("1.") == Some(1000);
  }

  /** `Double(_:)` reads a sign and an exponent. */
  lemma SignAndExponentForms()
    ensures ParseThousandths("-1") == Some(-1000)
    ensures ParseThousandths("1e3") == Some(1000000)
  {
    SignNegates("1");
    assert "-" + "1" == "-1";
    assert IndexOf("1e3", ExponentMarks) == 1;
    assert "1e3"[..1] == "1" && "1e3"[2..] == "3";
    assert SignedDigits("3") == Some(3);
    assert Scaled(1, 6) == 1000000;
  }

  /** Text with no digit in the mantissa, or an exponent mark with no digits, is refused. */
  lemma RefusedForms()
    ensures ParseThousandths(".").None? && ParseThousandths("-").None? && ParseThousandths("1e").None?
  {
    assert IndexOf(".", ExponentMarks) == 1;
    assert IndexOf(".", {'.'}) == 0;
    assert "-"[1..] == "";
    assert IndexOf("1e", ExponentMarks) == 1;
    assert "1e"[2..] == "";
  }

  /** A whole number of seconds in a header reads as that many thousands. */
  lemma WholeNumberParses(n: nat)
    ensures ParseThousandths(NatToString(n)) == Some(n * 1000)
  {
    DigitsValueOfNatToString(n);
  }

  /**
   * `RouteState.init`: both headers present and numeric give the remaining
   * count and the reset time; anything else gives no remaining requests
   * and a reset time of now.
   */
  function MakeRouteState(route: string, headers: Headers, now: int): (st: RouteState)
    ensures st.route == route
    ensures (RemainingHeader !in headers || ResetHeader !in headers ||
             ParseThousandths(headers[RemainingHeader]).None? || ParseThousandths(headers[ResetHeader]).None?) ==>
        st.remaining == 0 && st.resetTime == now
    ensures (RemainingHeader in headers && ResetHeader in headers &&
             ParseThousandths(headers[RemainingHeader]).Some? && ParseThousandths(headers[ResetHeader]).Some?) ==>
        st.remaining == ParseThousandths(headers[RemainingHeader]).value &&
        st.resetTime == ParseThousandths(headers[ResetHeader]).value
  {
    if RemainingHeader in headers && ResetHeader in headers then
      match (ParseThousandths(headers[RemainingHeader]), ParseThousandths(headers[ResetHeader]))
      case (Some(remaining), Some(reset)) => RouteState(route, reset, remaining)
      case _ => RouteState(route, now, 0)
    else RouteState(route, now, 0)
  }

  /** `willRatelimitNext`: less than one request left and the reset time not yet passed. */
  predicate WillRatelimitNext(st: RouteState, now: int) {
    st.remaining < 1000 && st.resetTime - now >= 0
  }

  function Max(a: int, b: int): int {
    if a >= b then a else b
  }

  /** The bucket `update` writes: "global" when the response says the limit is global. */
  function UpdatedBucket(route: AnyRoute, headers: Headers): (key: string)
    ensures key == GlobalBucket || key == route.bucket
    ensures key == GlobalBucket <==> GlobalHeader in headers || route.bucket == GlobalBucket
  {
    if GlobalHeader in headers then GlobalBucket else route.bucket
  }

  /**
   * `check`: a wait exactly when the route's bucket has a state and that
   * state or the global one will rate-limit; the wait is the later of the
   * two reset times (the global one counting as now when absent), from now.
   */
  function Limit(states: map<string, RouteState>, bucket: string, now: int): (r: Option<int>)
    ensures r.Some? <==> (bucket in states &&
      (WillRatelimitNext(states[bucket], now) || (GlobalBucket in states && WillRatelimitNext(states[GlobalBucket], now))))
    ensures r.Some? ==> r.value >= 0
    ensures r.Some? ==> r.value >= states[bucket].resetTime - now
    ensures r.Some? && GlobalBucket in states ==> r.value >= states[GlobalBucket].resetTime - now
    ensures r.Some? ==> (r.value == states[bucket].resetTime - now ||
      (GlobalBucket in states && r.value == states[GlobalBucket].resetTime - now) || r.value == 0)
  {
    if bucket in states &&
       (WillRatelimitNext(states[bucket], now) || (GlobalBucket in states && WillRatelimitNext(states[GlobalBucket], now)))
    then
      var globalWait := if GlobalBucket in states then states[GlobalBucket].resetTime - now else 0;
      Some(Max(states[bucket].resetTime - now, globalWait))
    else None
  }

  class RateLimiter {
    var states: map<string, RouteState>

    constructor()
      ensures states == map[]
    {
      states := map[];
    }

    /** `update`: store the state read from the response under exactly one bucket. */
    method Update(route: AnyRoute, headers: Headers, now: int)
      modifies this
      ensures var key := UpdatedBucket(route, headers);
        states == old(states)[key := MakeRouteState(key, headers, now)]
    {
      var bucket := if GlobalHeader in headers then GlobalBucket else route.bucket;
      states := states[bucket := MakeRouteState(bucket, headers, now)];
    }

    /** `check`: it reads the states and changes nothing. */
    function Check(route: AnyRoute, now: int): (r: Option<int>)
      reads this
      ensures r.Some? <==> (route.bucket in states &&
        (WillRatelimitNext(states[route.bucket], now) || (GlobalBucket in states && WillRatelimitNext(states[GlobalBucket], now))))
      ensures r.Some? ==> r.value >= 0 && r.value >= states[route.bucket].resetTime - now
    {
      Limit(states, route.bucket, now)
    }
  }

  /** A fresh limiter, or one that has never seen the bucket, never makes a request wait, even under a global limit. */
  lemma NoStateNoWait(states: map<string, RouteState>, bucket: string, now: int)
    requires bucket !in states
    ensures Limit(states, bucket, now).None?
    ensures Limit(map[], bucket, now).None?
  {
  }

  /** Routes that are `==` get the same answer from the limiter. */
  lemma SameRouteSameLimit(l: RateLimiter, a: AnyRoute, b: AnyRoute, now: int)
    requires SameRoute(a, b)
    ensures l.Check(a, now) == l.Check(b, now)
  {
  }

  /**
   * After a response says a bucket has nothing left until a later reset,
   * the next check on that route waits at least until that reset.
   */
  lemma ExhaustedBucketWaits(states: map<string, RouteState>, route: AnyRoute, headers: Headers, now: int, reset: nat)
    requires GlobalHeader !in headers && route.bucket != GlobalBucket
    requires headers == map[RemainingHeader := "0", ResetHeader := NatToString(reset)]
    requires reset * 1000 >= now
    ensures var after := states[route.bucket := MakeRouteState(route.bucket, headers, now)];
      Limit(after, route.bucket, now).Some? && Limit(after, route.bucket, now).value >= reset * 1000 - now
  {
    WholeNumberParses(reset);
    WholeNumberParses(0);
    assert NatToString(0) == "0";
  }

  /** A response for another, non-global bucket does not change a route's answer. */
  lemma UpdateIsolatesBuckets(states: map<string, RouteState>, other: AnyRoute, headers: Headers, bucket: string, now: int)
    requires UpdatedBucket(other, headers) != bucket && UpdatedBucket(other, headers) != GlobalBucket
    ensures var key := UpdatedBucket(other, headers);
      Limit(states[key := MakeRouteState(key, headers, now)], bucket, now) == Limit(states, bucket, now)
  {
    var key := UpdatedBucket(other, headers);
    var after := states[key := MakeRouteState(key, headers, now)];
    assert (bucket in after) == (bucket in states);
    assert (GlobalBucket in after) == (GlobalBucket in states);
  }

  /** A response without usable headers leaves the bucket limiting until now, so an immediate check waits zero. */
  lemma MissingHeadersLimitUntilNow(states: map<string, RouteState>, route: AnyRoute, now: int)
    requires route.bucket != GlobalBucket && GlobalBucket !in states
    ensures var after := states[route.bucket := MakeRouteState(route.bucket, map[], now)];
      Limit(after, route.bucket, now) == Some(0)
  {
  }
}
