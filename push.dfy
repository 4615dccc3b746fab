/** `sendPushNotification`: filters the device tokens, then sends one message
    per token (array input) or one message (any other truthy input). The
    Firebase send is an oracle that answers each message with a response or an
    error. */
module PushService {
  import opened Common

  /** The `deviceTokens` argument: falsy (undefined, null), a single value, or
      an array. A single empty string is falsy as well. */
  datatype Tokens = NoTokens | One(token: string) | Many(tokens: seq<string>)

  /** The data payload every caller passes: the booking id and a click action. */
  datatype Payload = Payload(bookingId: Id, clickAction: string)

  /** A Firebase message. In the single-device branch `token` is the argument
      itself, which may be an array that the filter left empty. */
  datatype Message = Message(token: Tokens, title: string, body: string, data: Payload, androidPriority: string)

  datatype SendResult = Delivered(response: string) | Rejected(error: string)

  datatype TokenResult = TokenSent(token: string, response: string) | TokenFailed(token: string, error: string)

  datatype PushResult =
    | PerToken(results: seq<TokenResult>)   // the array branch returns the result list
    | SingleSent(response: string)          // the single-device branch returns the response
    | Thrown(error: string)                 // the call throws

  /** The oracle standing for `admin.messaging().send`. */
  type Sender = Message -> SendResult

  const NoTokensError: string := "Device tokens are required"
  const HighPriority: string := "high"

  predicate Truthy(t: Tokens)
  {
    match t
    case NoTokens => false
    case One(s) => s != ""
    case Many(_) => true
  }

  /** `tokens.filter((token) => token)`. */
  function TruthyTokens(ts: seq<string>): (r: seq<string>)
    ensures |r| <= |ts|
    ensures forall i :: 0 <= i < |r| ==> r[i] != ""
    ensures forall t :: t in r <==> t in ts && t != ""
  {
    if ts == [] then []
    else if ts[0] == "" then TruthyTokens(ts[1..])
    else [ts[0]] + TruthyTokens(ts[1..])
  }

  /** Filtering keeps the relative order of what it keeps: it distributes over
      concatenation. */
  lemma {:induction false} TruthyTokensAppend(a: seq<string>, b: seq<string>)
    ensures TruthyTokens(a + b) == TruthyTokens(a) + TruthyTokens(b)
  {
    if a == [] {
      assert a + b == b;
    } else {
      assert (a + b)[0] == a[0] && (a + b)[1..] == a[1..] + b;
      TruthyTokensAppend(a[1..], b);
    }
  }

  /** A list with no falsy token passes the filter unchanged. */
  lemma {:induction false} TruthyTokensKeepsTruthy(ts: seq<string>)
    requires forall i :: 0 <= i < |ts| ==> ts[i] != ""
    ensures TruthyTokens(ts) == ts
  {
    if ts != [] {
      TruthyTokensKeepsTruthy(ts[1..]);
    }
  }

  /** Filtering twice is filtering once. */
  lemma TruthyTokensIdempotent(ts: seq<string>)
    ensures TruthyTokens(TruthyTokens(ts)) == TruthyTokens(ts)
  {
    TruthyTokensKeepsTruthy(TruthyTokens(ts));
  }

  /** The argument after the filter step: arrays are filtered, anything else is
      left as it is. */
  function Filtered(deviceTokens: Tokens): Tokens
  {
    if deviceTokens.Many? then Many(TruthyTokens(deviceTokens.tokens)) else deviceTokens
  }

  /** The array branch is taken for a non-empty array after filtering. */
  predicate TakesArrayBranch(deviceTokens: Tokens)
  {
    deviceTokens.Many? && |TruthyTokens(deviceTokens.tokens)| > 0
  }

  function MessageFor(token: Tokens, title: string, body: string, data: Payload): Message
  {
    Message(token, title, body, data, HighPriority)
  }

  function TokenOutcome(token: string, answer: SendResult): TokenResult
  {
    match answer
    case Delivered(response) => TokenSent(token, response)
    case Rejected(error) => TokenFailed(token, error)
  }

  /** What `sendPushNotification` sends, in order, and what it returns or throws. */
  function Dispatch(deviceTokens: Tokens, title: string, body: string, data: Payload, send: Sender)
    : (d: (PushResult, seq<Message>))
    // a falsy argument throws before anything is sent
    ensures !Truthy(deviceTokens) ==> d == (Thrown(NoTokensError), [])
    // array branch: one send per surviving token, in order; a failure is recorded and the loop goes on
    ensures TakesArrayBranch(deviceTokens) ==>
              var ts := TruthyTokens(deviceTokens.tokens);
              && |d.1| == |ts| && d.0.PerToken? && |d.0.results| == |ts|
              && (forall i :: 0 <= i < |ts| ==> d.1[i].token == One(ts[i]))
              && (forall i :: 0 <= i < |ts| ==> d.0.results[i].token == ts[i])
              && (forall i :: 0 <= i < |ts| ==> d.0.results[i] == TokenOutcome(ts[i], send(d.1[i])))
              && (forall i :: 0 <= i < |ts| ==>
                    (d.0.results[i].TokenFailed? <==> send(d.1[i]).Rejected?))
    // single branch, including an array that the filter emptied: one send, a failure is rethrown
    ensures Truthy(deviceTokens) && !TakesArrayBranch(deviceTokens) ==>
              && d.1 == [MessageFor(Filtered(deviceTokens), title, body, data)]
              && (send(d.1[0]).Delivered? ==> d.0 == SingleSent(send(d.1[0]).response))
              && (send(d.1[0]).Rejected? ==> d.0 == Thrown(send(d.1[0]).error))
    // every message carries the title, the body, the payload and high Android priority
    ensures forall i :: 0 <= i < |d.1| ==>
              d.1[i].title == title && d.1[i].body == body && d.1[i].data == data
              && d.1[i].androidPriority == HighPriority
    // only the single branch can throw
    ensures d.0.Thrown? ==> |d.1| <= 1
  {
    var filtered := Filtered(deviceTokens);
    if TakesArrayBranch(deviceTokens) then
      var ts := filtered.tokens;
      var sent := seq(|ts|, i requires 0 <= i < |ts| => MessageFor(One(ts[i]), title, body, data));
      (PerToken(seq(|ts|, i requires 0 <= i < |ts| => TokenOutcome(ts[i], send(sent[i])))), sent)
    else if Truthy(filtered) then
      var m := MessageFor(filtered, title, body, data);
      match send(m)
      case Delivered(response) => (SingleSent(response), [m])
      case Rejected(error) => (Thrown(error), [m])
    else
      (Thrown(NoTokensError), [])
  }

  /** True when the call throws, so that a caller's `await` rejects. */
  predicate Throws(deviceTokens: Tokens, title: string, body: string, data: Payload, send: Sender)
  {
    Dispatch(deviceTokens, title, body, data, send).0.Thrown?
  }

  /** An array argument is always truthy, so it never yields "Device tokens are
      required"; when its filtered list is empty it can still throw, but only
      by the single send being rejected. */
  lemma ArrayNeverLacksTokens(ts: seq<string>, title: string, body: string, data: Payload, send: Sender)
    ensures Throws(Many(ts), title, body, data, send) <==>
              |TruthyTokens(ts)| == 0 && send(MessageFor(Many([]), title, body, data)).Rejected?
  {
  }

  /** The handler's loop over the tokens. */
  method SendPushNotification(deviceTokens: Tokens, title: string, body: string, data: Payload, send: Sender)
    returns (r: PushResult, sent: seq<Message>)
    ensures (r, sent) == Dispatch(deviceTokens, title, body, data, send)
  {
    var tokens := deviceTokens;
    if tokens.Many? {
      tokens := Many(TruthyTokens(tokens.tokens));
    }
    if tokens.Many? && |tokens.tokens| > 0 {
      var ts := tokens.tokens;
      var results: seq<TokenResult> := [];
      sent := [];
      for i := 0 to |ts|
        invariant |results| == i && |sent| == i
        invariant forall j :: 0 <= j < i ==> sent[j] == MessageFor(One(ts[j]), title, body, data)
        invariant forall j :: 0 <= j < i ==> results[j] == TokenOutcome(ts[j], send(sent[j]))
      {
        var message := MessageFor(One(ts[i]), title, body, data);
        var answer := send(message);
        sent := sent + [message];
        match answer {
          case Delivered(response) => results := results + [TokenSent(ts[i], response)];
          case Rejected(error) => results := results + [TokenFailed(ts[i], error)];
        }
      }
      r := PerToken(results);
      assert sent == seq(|ts|, i requires 0 <= i < |ts| => MessageFor(One(ts[i]), title, body, data));
      assert results == seq(|ts|, i requires 0 <= i < |ts| => TokenOutcome(ts[i], send(sent[i])));
    } else if Truthy(tokens) {
      var message := MessageFor(tokens, title, body, data);
      sent := [message];
      match send(message) {
        case Delivered(response) => r := SingleSent(response);
        case Rejected(error) => r := Thrown(error);
      }
    } else {
      r, sent := Thrown(NoTokensError), [];
    }
  }
}
