/**
 * The request and response exchange that the proxy forwards before it hands the two
 * connections over to raw copying.
 */
module Negotiation {
  import opened Options
  import opened Rtsp
  import opened RtspText

  /** How much of either stream belongs to the negotiation. */
  datatype Split = Split(up: nat, dev: nat)

  /**
   * Given the pending request line, the bytes from upstream and the bytes from the device:
   * responses and requests alternate until a response finishes the negotiation.
   */
  function Negotiate(request: string, up: string, dev: string): (r: Option<Split>)
    ensures r.Some? ==> r.value.up <= |up| && r.value.dev <= |dev|
    decreases |dev|
  {
    match MessageLength(dev)
    case None => None
    case Some(n) =>
      if NegotiationFinished(request, StartLine(dev)) then Some(Split(0, n))
      else match MessageLength(up)
        case None => None
        case Some(m) => Later(m, n, Negotiate(StartLine(up), up[m..], dev[n..]))
  }

  function Later(m: nat, n: nat, rest: Option<Split>): Option<Split> {
    if rest.None? then None else Some(Split(m + rest.value.up, n + rest.value.dev))
  }

  /**
   * An exchange, said without the loop: one response for every request, all of them
   * messages, and the last pair, but no earlier one, is a PLAY or RECORD with a
   * response that succeeds.
   */
  ghost predicate Exchange(request: string, requests: seq<string>, responses: seq<string>) {
    && |responses| == |requests| + 1
    && (forall m :: m in requests ==> IsMessage(m))
    && (forall m :: m in responses ==> IsMessage(m))
    && (forall i :: 0 <= i < |responses| ==>
          (Finishes(RequestLine(request, requests, i), StartLine(responses[i])) <==> i == |responses| - 1))
  }

  /** The request that response i answers. */
  function RequestLine(request: string, requests: seq<string>, i: nat): string
    requires i <= |requests|
  {
    if i == 0 then request else StartLine(requests[i - 1])
  }

  lemma StartLineOfPrefix(s: string, n: nat)
    requires n <= |s| && IsMessage(s[..n])
    ensures StartLine(s) == StartLine(s[..n])
  {
    var start, lines, body :| MadeOf(s[..n], start, lines, body);
    Pieces(s[..n], start, Joined(lines), body);
    assert s[..n][..|s[..n]|] == s[..n];
    assert s[0..|start|] == s[..n][0..|start|] == start;
    LineEndIs(s, 0, |start|);
    LineEndIs(s[..n], 0, |start|);
    assert s[..n][..|start|] == s[..|start|];
  }

  lemma ExchangeHead(request: string, requests: seq<string>, responses: seq<string>)
    requires |requests| > 0 && |responses| > 0
    ensures Exchange(request, requests, responses) <==>
            (&& IsMessage(requests[0]) && IsMessage(responses[0])
             && !Finishes(request, StartLine(responses[0]))
             && Exchange(StartLine(requests[0]), requests[1..], responses[1..]))
  {
    hide Finishes, StartLine;
    var next, qs, rs := StartLine(requests[0]), requests[1..], responses[1..];
    assert requests == [requests[0]] + qs && responses == [responses[0]] + rs;
    if |responses| == |requests| + 1 {
      forall i | 0 <= i < |rs|
        ensures RequestLine(next, qs, i) == RequestLine(request, requests, i + 1) && rs[i] == responses[i + 1]
      {
      }
      if Exchange(request, requests, responses) {
        assert Finishes(RequestLine(request, requests, 0), StartLine(responses[0])) <==> false;
        forall i | 0 <= i < |rs|
          ensures Finishes(RequestLine(next, qs, i), StartLine(rs[i])) <==> i == |rs| - 1
        {
          assert Finishes(RequestLine(request, requests, i + 1), StartLine(responses[i + 1])) <==>
                 i + 1 == |responses| - 1;
        }
      }
      if !Finishes(request, StartLine(responses[0])) && Exchange(next, qs, rs) {
        forall i | 0 <= i < |responses|
          ensures Finishes(RequestLine(request, requests, i), StartLine(responses[i])) <==>
                  i == |responses| - 1
        {
          if i > 0 {
            assert Finishes(RequestLine(next, qs, i - 1), StartLine(rs[i - 1])) <==> i - 1 == |rs| - 1;
          }
        }
      }
    }
  }

  lemma {:induction false} NegotiateSound(request: string, up: string, dev: string)
      returns (requests: seq<string>, responses: seq<string>)
    requires Negotiate(request, up, dev).Some?
    ensures Exchange(request, requests, responses)
    ensures up[..Negotiate(request, up, dev).value.up] == Joined(requests)
    ensures dev[..Negotiate(request, up, dev).value.dev] == Joined(responses)
    decreases |dev|
  {
    hide MessageLength, StartLine, NegotiationFinished, Finishes;
    var n := MessageLength(dev).value;
    FramesExactlyMessages(dev, n);
    StartLineOfPrefix(dev, n);
    FinishedIff(request, StartLine(dev));
    if NegotiationFinished(request, StartLine(dev)) {
      requests, responses := [], [dev[..n]];
      assert Joined(responses) == dev[..n] + Joined(responses[1..]);
    } else {
      var m := MessageLength(up).value;
      FramesExactlyMessages(up, m);
      StartLineOfPrefix(up, m);
      var rest := Negotiate(StartLine(up), up[m..], dev[n..]).value;
      var qs, rs := NegotiateSound(StartLine(up), up[m..], dev[n..]);
      requests, responses := [up[..m]] + qs, [dev[..n]] + rs;
      assert requests[1..] == qs && responses[1..] == rs;
      ExchangeHead(request, requests, responses);
      assert up[..m + rest.up] == up[..m] + up[m..][..rest.up];
      assert dev[..n + rest.dev] == dev[..n] + dev[n..][..rest.dev];
    }
  }

  lemma FirstMessage(s: string, n: nat, messages: seq<string>)
    requires n <= |s| && messages != [] && IsMessage(messages[0]) && s[..n] == Joined(messages)
    ensures var k := |messages[0]|;
            && k <= n && MessageLength(s) == Some(k) && StartLine(s) == StartLine(messages[0])
            && s[k..][..n - k] == Joined(messages[1..])
  {
    var k := |messages[0]|;
    assert s[..k] == s[..n][..k] == messages[0];
    FramesExactlyMessages(s, k);
    StartLineOfPrefix(s, k);
    assert s[k..][..n - k] == s[..n][k..];
  }

  lemma {:induction false} NegotiateComplete(
      request: string, up: string, dev: string, u: nat, d: nat, requests: seq<string>, responses: seq<string>)
    requires u <= |up| && d <= |dev| && Exchange(request, requests, responses)
    requires up[..u] == Joined(requests) && dev[..d] == Joined(responses)
    ensures Negotiate(request, up, dev) == Some(Split(u, d))
    decreases |responses|
  {
    hide MessageLength, StartLine, NegotiationFinished, Finishes;
    assert responses[0] in responses;
    FirstMessage(dev, d, responses);
    assert Finishes(RequestLine(request, requests, 0), StartLine(responses[0])) <==> 0 == |responses| - 1;
    FinishedIff(request, StartLine(dev));
    if requests == [] {
      assert |up[..u]| == 0 && |Joined(responses[1..])| == 0;
    } else {
      ExchangeHead(request, requests, responses);
      FirstMessage(up, u, requests);
      var m, n := |requests[0]|, |responses[0]|;
      NegotiateComplete(StartLine(up), up[m..], dev[n..], u - m, d - n, requests[1..], responses[1..]);
    }
  }

  /**
   * The loop hands over after exactly the bytes of one exchange: so only after a PLAY or
   * RECORD whose response has a status that starts with 2, and never later than the first.
   */
  lemma HandoverIffExchange(request: string, up: string, dev: string, u: nat, d: nat)
    requires u <= |up| && d <= |dev|
    ensures Negotiate(request, up, dev) == Some(Split(u, d)) <==>
            exists requests: seq<string>, responses: seq<string> ::
              && Exchange(request, requests, responses)
              && up[..u] == Joined(requests) && dev[..d] == Joined(responses)
  {
    if Negotiate(request, up, dev) == Some(Split(u, d)) {
      var requests, responses := NegotiateSound(request, up, dev);
    }
    if requests: seq<string>, responses: seq<string> :|
       Exchange(request, requests, responses) && up[..u] == Joined(requests) && dev[..d] == Joined(responses)
    {
      NegotiateComplete(request, up, dev, u, d, requests, responses);
    }
  }

  // The loop, part of the way

  /** Having forwarded u and d bytes and with this line as the pending request, the rest is as good as the whole. */
  ghost predicate Underway(request: string, up: string, dev: string, line: string, u: nat, d: nat) {
    u <= |up| && d <= |dev| && Negotiate(request, up, dev) == Later(u, d, Negotiate(line, up[u..], dev[d..]))
  }

  lemma Begins(request: string, up: string, dev: string)
    ensures Underway(request, up, dev, request, 0, 0)
  {
  }

  lemma Breaks(request: string, up: string, dev: string, line: string, u: nat, d: nat)
    requires Underway(request, up, dev, line, u, d)
    requires MessageLength(dev[d..]) == None ||
             (!NegotiationFinished(line, StartLine(dev[d..])) && MessageLength(up[u..]) == None)
    ensures Negotiate(request, up, dev) == None
  {
  }

  lemma Ends(request: string, up: string, dev: string, line: string, u: nat, d: nat, end: nat)
    requires Underway(request, up, dev, line, u, d)
    requires d <= end && MessageLength(dev[d..]) == Some(end - d) && NegotiationFinished(line, StartLine(dev[d..]))
    ensures Negotiate(request, up, dev) == Some(Split(u, end))
  {
    hide MessageLength, StartLine, NegotiationFinished;
  }

  lemma GoesOn(request: string, up: string, dev: string, line: string, u: nat, d: nat, u': nat, d': nat)
    requires Underway(request, up, dev, line, u, d) && u <= u' && d <= d'
    requires MessageLength(dev[d..]) == Some(d' - d) && !NegotiationFinished(line, StartLine(dev[d..]))
    requires MessageLength(up[u..]) == Some(u' - u)
    ensures Underway(request, up, dev, StartLine(up[u..]), u', d')
  {
    hide MessageLength, StartLine, NegotiationFinished;
    assert up[u..][u' - u..] == up[u'..] && dev[d..][d' - d..] == dev[d'..];
  }
}
