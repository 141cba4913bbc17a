/** Handling of the replies of the 2captcha solving service: the job id in the submission
    reply, polling until the result is ready, and the answer in the final reply
    (abstract_crawler.py, `_solve` and `resolvegeetest`). */
module Solver {
  import opened Errors
  import opened PyStr

  /** The text the result endpoint returns while the job is still being solved. */
  const NotReadySentinel: string := "CAPCHA_NOT_READY"

  /** The loop condition of both poll loops: `"CAPCHA_NOT_READY" in answer`. */
  predicate NotReady(reply: string)
  {
    Contains(reply, NotReadySentinel)
  }

  /** `reply.split("|")[1]`: the job id of a submission reply and the token of a
      reCAPTCHA result reply; None where Python raises IndexError. */
  function SecondField(reply: string): (r: Option<string>)
    ensures r == None <==> '|' !in reply
    ensures r.Some? ==> '|' !in r.value
  {
    Field(reply, '|', 1)
  }

  /** A reply of the form "<status>|<value>" yields `value` as its second field. */
  lemma SecondFieldOf(status: string, value: string)
    requires '|' !in status && '|' !in value
    ensures SecondField(status + "|" + value) == Some(value)
  {
    SplitAtFirst(status, '|', value);
  }

  /** The second field stops at the next `|`: whatever follows it is dropped. */
  lemma SecondFieldStopsAtBar(status: string, value: string, rest: string)
    requires '|' !in status && '|' !in value
    ensures SecondField(status + "|" + value + "|" + rest) == Some(value)
  {
    var tail := value + "|" + rest;
    assert status + "|" + value + "|" + rest == status + ['|'] + tail;
    SplitAtFirst(status, '|', tail);
    SplitAtFirst(value, '|', rest);
    var parts := Split(status + "|" + value + "|" + rest, '|');
    assert parts == [status] + ([value] + Split(rest, '|'));
    assert parts[1] == value;
  }

  /** `answer[answer.find('|') + 1:]`: the Geetest payload of a result reply. */
  function GeetestPayload(reply: string): string
  {
    AfterFirst(reply, '|')
  }

  /** The payload is everything after the first `|`, later `|` characters included. */
  lemma GeetestPayloadOf(status: string, payload: string)
    requires '|' !in status
    ensures GeetestPayload(status + "|" + payload) == payload
  {
    AfterFirstOf(status, '|', payload);
  }

  /** A reply without `|` is passed on whole: `find` gives -1 and the slice starts at 0. */
  lemma GeetestPayloadWithoutBar(reply: string)
    requires '|' !in reply
    ensures GeetestPayload(reply) == reply
  {
  }

  /** Where polling ended: the first reply that was ready and the number of `sleep(5)` calls
      before it, or, when every available reply said not ready, the number of sleeps taken. */
  datatype Polled = Answered(answer: string, sleeps: nat) | Unanswered(sleeps: nat)

  /** The outcome of polling over the successive replies of the result endpoint:
      the first reply without the sentinel, after one sleep per reply before it. */
  function FirstReady(replies: seq<string>): (r: Polled)
    ensures r.Answered? ==> r.sleeps < |replies| && r.answer == replies[r.sleeps] && !NotReady(r.answer)
    ensures r.Answered? ==> forall j :: 0 <= j < r.sleeps ==> NotReady(replies[j])
    ensures r.Unanswered? ==> r.sleeps == |replies| && forall j :: 0 <= j < |replies| ==> NotReady(replies[j])
  {
    if |replies| == 0 then Unanswered(0)
    else if !NotReady(replies[0]) then Answered(replies[0], 0)
    else
      match FirstReady(replies[1..])
      case Answered(a, n) => Answered(a, n + 1)
      case Unanswered(n) => Unanswered(n + 1)
  }

  /** Not-ready replies followed by a ready one: polling stops at the ready one, after one
      sleep per not-ready reply, and never looks at the replies after it. */
  lemma FirstReadyAfter(pending: seq<string>, ready: string, later: seq<string>)
    requires forall j :: 0 <= j < |pending| ==> NotReady(pending[j])
    requires !NotReady(ready)
    ensures FirstReady(pending + [ready] + later) == Answered(ready, |pending|)
  {
    var replies := pending + [ready] + later;
    assert replies[|pending|] == ready;
    assert forall j :: 0 <= j < |pending| ==> replies[j] == pending[j];
  }

  /** The poll loop shared by `_solve` and `resolvegeetest`: one GET, then while the answer
      still contains the sentinel, one sleep and another GET. `replies` are the texts the
      successive GETs return; running out of them stands for the source's unbounded wait. */
  method Poll(replies: seq<string>) returns (r: Polled)
    ensures r == FirstReady(replies)
  {
    if |replies| == 0 {
      return Unanswered(0);
    }
    var answer := replies[0];
    var i := 0;
    while NotReady(answer)
      invariant 0 <= i < |replies| && answer == replies[i]
      invariant forall j :: 0 <= j < i ==> NotReady(replies[j])
      decreases |replies| - i
    {
      i := i + 1;  // sleep(5)
      if i == |replies| {
        return Unanswered(i);
      }
      answer := replies[i];
    }
    r := Answered(answer, i);
  }

  /** The decoded Geetest answer: the three fields read from the JSON object. */
  datatype GeetestAnswer = GeetestAnswer(challenge: string, seccode: string, validate: string)

  /** What `json.loads` returns, as far as the lookups care: an object, taken as a map from
      keys to string values, or any other JSON value (a list, a string, a number, a boolean
      or null). */
  datatype JsonValue = JsonObject(fields: map<string, string>) | OtherJson

  /** `json.loads(payload)` followed by the three lookups `geetest_challenge`,
      `geetest_seccode`, `geetest_validate`, in that order: a payload that is not JSON raises
      the decode error, a value that is not an object raises TypeError on the first lookup,
      and the first missing key raises KeyError. JSON decoding itself is the parameter
      `loads`. */
  function ReadGeetestAnswer(payload: string, loads: string -> Option<JsonValue>): (r: Result<GeetestAnswer>)
    ensures r.Ok? <==> loads(payload).Some? && loads(payload).value.JsonObject?
                       && GeetestKeys <= loads(payload).value.fields.Keys
    ensures r.Ok? ==> var obj := loads(payload).value.fields;
      r.value == GeetestAnswer(obj["geetest_challenge"], obj["geetest_seccode"], obj["geetest_validate"])
    ensures loads(payload).None? ==> r == Err(JsonDecodeError)
    ensures loads(payload) == Some(OtherJson) ==> r == Err(TypeError)
    ensures loads(payload).Some? && loads(payload).value.JsonObject? && r.Err? ==>
      r.exc.KeyError? && r.exc.key in GeetestKeys && r.exc.key !in loads(payload).value.fields
  {
    match loads(payload)
    case None => Err(JsonDecodeError)
    case Some(OtherJson) => Err(TypeError)
    case Some(JsonObject(obj)) =>
      if "geetest_challenge" !in obj then Err(KeyError("geetest_challenge"))
      else if "geetest_seccode" !in obj then Err(KeyError("geetest_seccode"))
      else if "geetest_validate" !in obj then Err(KeyError("geetest_validate"))
      else Ok(GeetestAnswer(obj["geetest_challenge"], obj["geetest_seccode"], obj["geetest_validate"]))
  }

  const GeetestKeys: set<string> := {"geetest_challenge", "geetest_seccode", "geetest_validate"}

  /** An answer object lacking `geetest_validate` (the other two present) fails with KeyError
      naming it. */
  lemma MissingValidate(payload: string, loads: string -> Option<JsonValue>)
    requires loads(payload).Some? && loads(payload).value.JsonObject?
    requires "geetest_challenge" in loads(payload).value.fields && "geetest_seccode" in loads(payload).value.fields
    requires "geetest_validate" !in loads(payload).value.fields
    ensures ReadGeetestAnswer(payload, loads) == Err(KeyError("geetest_validate"))
  {
  }
}
