/**
 * The mocked HTTP API: a process-wide request counter behind
 * `GET /api/counter` and `POST /api/reset`, and the answer built by
 * `GET /api/question`. Requests and JSON responses are plain values.
 */
module MockHandlers {

  import opened Wrappers
  import opened Decimal
  import opened UriComponent

  /** The JSON body `{count, message}` of both counter endpoints. */
  datatype CounterResponse = CounterResponse(count: nat, message: string)

  /** The JSON body `{answer}` of `/api/question`. */
  datatype AnswerResponse = AnswerResponse(answer: string)

  /** A request's decoded query string, as name-value pairs in order. */
  datatype QuestionRequest = QuestionRequest(searchParams: seq<(string, string)>)

  const CounterPrefix := "This is request number "

  const ResetMessage := "Counter reset to 0"

  /** `This is request number ${n}`: the prefix, then `n` in decimal. */
  function CounterMessage(n: nat): (m: string)
    ensures |m| > |CounterPrefix| && m[..|CounterPrefix|] == CounterPrefix
    ensures AllDigits(m[|CounterPrefix|..]) && DigitsValue(m[|CounterPrefix|..]) == n
    ensures |m| > |CounterPrefix| + 1 ==> m[|CounterPrefix|] != '0'
  {
    NatToStringRoundTrip(n);
    var m := CounterPrefix + NatToString(n);
    assert m[|CounterPrefix|..] == NatToString(n);
    m
  }

  /** The contract of CounterMessage determines the message: nothing else meets it. */
  lemma CounterMessageUnique(n: nat, m: string)
    requires |m| > |CounterPrefix| && m[..|CounterPrefix|] == CounterPrefix
    requires AllDigits(m[|CounterPrefix|..]) && DigitsValue(m[|CounterPrefix|..]) == n
    requires |m| > |CounterPrefix| + 1 ==> m[|CounterPrefix|] != '0'
    ensures m == CounterMessage(n)
  {
    var k := |CounterPrefix|;
    var c := CounterMessage(n);
    assert m[k..][0] == m[k];
    assert c[k..][0] == c[k];
    CanonicalDigitsAreNatToString(m[k..]);
    CanonicalDigitsAreNatToString(c[k..]);
    assert m == m[..k] + m[k..];
    assert c == c[..k] + c[k..];
  }

  /** The messages the component tests read back after the first and second request. */
  lemma CounterMessagesOfTests()
    ensures CounterMessage(1) == "This is request number 1"
    ensures CounterMessage(2) == "This is request number 2"
  {
  }

  /** `URLSearchParams.get(name)`: the value of the first pair with that name, or null. */
  function SearchParam(params: seq<(string, string)>, name: string): (r: Option<string>)
    ensures r.None? <==> forall i :: 0 <= i < |params| ==> params[i].0 != name
    ensures r.Some? ==> exists i :: 0 <= i < |params| && params[i] == (name, r.value)
                          && forall j :: 0 <= j < i ==> params[j].0 != name
  {
    if params == [] then None
    else if params[0].0 == name then Some(params[0].1)
    else
      var r := SearchParam(params[1..], name);
      if r.Some? then
        var i :| 0 <= i < |params| - 1 && params[1..][i] == (name, r.value)
                 && forall j :: 0 <= j < i ==> params[1..][j].0 != name;
        assert params[i + 1] == (name, r.value);
        assert forall j :: 0 <= j < i + 1 ==> params[j].0 != name by {
          forall j | 0 <= j < i + 1 ensures params[j].0 != name {
            if j > 0 { assert params[j] == params[1..][j - 1]; }
          }
        }
        r
      else
        assert forall i :: 0 <= i < |params| ==> params[i].0 != name by {
          forall i | 0 <= i < |params| ensures params[i].0 != name {
            if i > 0 { assert params[i] == params[1..][i - 1]; }
          }
        }
        r
  }

  /** `encodeURIComponent` applied to a nullable value: null is rendered as the string "null". */
  function EncodeNullable(v: Option<string>): string
  {
    EncodeUriComponent(if v.Some? then v.value else "null")
  }

  /**
   * The `/api/question` answer: "SQL:" followed by the encoded question,
   * which decodes back to the UTF-8 bytes of the question (or of "null").
   */
  function Answer(question: Option<string>): (r: string)
    ensures |r| >= 4 && r[..4] == "SQL:"
    ensures PercentDecode(r[4..]) == Some(Utf8String(if question.Some? then question.value else "null"))
    ensures IsEncoded(r[4..])
    ensures r[4..] == EncodeUriComponent(if question.Some? then question.value else "null")
  {
    EncodeDecodeRoundTrip(if question.Some? then question.value else "null");
    EncodeUriComponentIsEncoded(if question.Some? then question.value else "null");
    var r := "SQL:" + EncodeNullable(question);
    assert r[4..] == EncodeNullable(question);
    r
  }

  /** A plain question is echoed as it is, and a missing one becomes "null". */
  lemma AnswerExamples()
    ensures Answer(Some("A")) == "SQL:A"
    ensures Answer(None) == "SQL:null"
  {
    EncodeUnescapedIdentity("A");
    EncodeUnescapedIdentity("null");
  }

  /** The handlers and the module-level `counter` they share. */
  class MockApi {
    var counter: nat

    /** The module is loaded with the counter at 0. */
    constructor ()
      ensures counter == 0
    {
      counter := 0;
    }

    /** `GET /api/counter`: count this request and report the new count. */
    method GetCounter() returns (r: CounterResponse)
      modifies this
      ensures counter == old(counter) + 1
      ensures r == CounterResponse(counter, CounterMessage(counter))
    {
      counter := counter + 1;
      r := CounterResponse(counter, CounterMessage(counter));
    }

    /** `POST /api/reset`: set the counter back to 0. */
    method PostReset() returns (r: CounterResponse)
      modifies this
      ensures counter == 0
      ensures r == CounterResponse(0, ResetMessage)
    {
      counter := 0;
      r := CounterResponse(counter, ResetMessage);
    }

    /** `GET /api/question`: answer from the `question` parameter; the counter is not touched. */
    method GetQuestion(req: QuestionRequest) returns (r: AnswerResponse)
      ensures r.answer == Answer(SearchParam(req.searchParams, "question"))
      ensures r.answer[..4] == "SQL:"
    {
      var question := SearchParam(req.searchParams, "question");
      r := AnswerResponse(Answer(question));
    }
  }

  /** The first counter request of a fresh server reports 1 and its message. */
  method FirstRequest() returns (r: CounterResponse)
    ensures r.count == 1 && r.message == "This is request number 1"
  {
    var api := new MockApi();
    r := api.GetCounter();
    CounterMessagesOfTests();
  }

  /** After a reset, the next counter request reports 1, whatever the counter was. */
  method ResetThenCount(api: MockApi) returns (reset: CounterResponse, next: CounterResponse)
    modifies api
    ensures reset == CounterResponse(0, "Counter reset to 0")
    ensures next.count == 1 && next.message == "This is request number 1" && api.counter == 1
  {
    reset := api.PostReset();
    next := api.GetCounter();
    CounterMessagesOfTests();
  }

}
