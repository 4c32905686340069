/**
 * The small pieces of logic of the HTTP routes: how a core error becomes a
 * response, how the optional `startDate`/`endDate` query parameters are
 * normalised, and which path the OAuth callback redirects back to.
 */
module Routes {
  import opened Schema

  const InvalidDateMessage := "Invalid startDate or endDate. Must be in ISOString format"

  /** A response body: a plain message, or the error object itself. */
  datatype Body = Text(text: string) | ErrorObject(error: Error)

  datatype Response = Response(status: nat, body: Body)

  /**
   * `handleError`: always a server error; an unreadable date (a Mongoose
   * CastError) gets a fixed explanation, any other error is sent as it is.
   */
  function HandleError(error: Error): (response: Response)
    ensures response.status == 500
    ensures response.body == Text(InvalidDateMessage) <==> error.name == "CastError"
    ensures error.name != "CastError" ==> response.body == ErrorObject(error)
  {
    if error.name == "CastError" then
      Response(500, Text(InvalidDateMessage))
    else
      Response(500, ErrorObject(error))
  }

  /** JavaScript truthiness of a query value that is missing, `null` or a string. */
  predicate Truthy(v: Option<string>)
  {
    v.Some? && v.value != ""
  }

  /**
   * The `/calendar-events` handler's treatment of one optional parameter:
   * missing or empty becomes `null`, anything else is kept.
   */
  function NormaliseParam(raw: Option<string>): (param: Option<string>)
    ensures param.None? <==> raw.None? || raw.value == ""
    ensures param.Some? ==> param == raw
  {
    if !Truthy(raw) then None else raw
  }

  /** Normalising twice is normalising once. */
  lemma NormaliseParamIsIdempotent(raw: Option<string>)
    ensures NormaliseParam(NormaliseParam(raw)) == NormaliseParam(raw)
  {
  }

  /** The page the OAuth callback sends the browser back to, and its parameter names. */
  const CalendarEventsPath := "/calendar-events"
  const StartKey := "startDate"
  const EndKey := "endDate"

  /** The query parameters the redirect carries: each bound that is truthy, start first. */
  function Present(startDate: Option<string>, endDate: Option<string>): seq<(string, string)>
  {
    (if Truthy(startDate) then [(StartKey, startDate.value)] else []) +
    (if Truthy(endDate) then [(EndKey, endDate.value)] else [])
  }

  /**
   * `path` with the parameters appended in order: `?` before the first,
   * `&` before each later one, each as `name=value` with the value not
   * URL-encoded.
   */
  function AppendParams(path: string, params: seq<(string, string)>): string
    decreases |params|
  {
    if params == [] then path
    else
      var n := |params| - 1;
      AppendParams(path, params[..n]) + (if n == 0 then "?" else "&") + params[n].0 + "=" + params[n].1
  }

  /**
   * Where the OAuth callback sends the browser back to: `/calendar-events`
   * itself exactly when neither bound is present, otherwise a longer path
   * that starts with it.
   */
  function RedirectTarget(startDate: Option<string>, endDate: Option<string>): (target: string)
    ensures |target| >= |CalendarEventsPath| && target[..|CalendarEventsPath|] == CalendarEventsPath
    ensures target == CalendarEventsPath <==> !Truthy(startDate) && !Truthy(endDate)
  {
    AppendParamsKeepsPath(CalendarEventsPath, Present(startDate, endDate));
    AppendParamsGrows(CalendarEventsPath, Present(startDate, endDate));
    AppendParams(CalendarEventsPath, Present(startDate, endDate))
  }

  /** The redirect path as the callback builds it, by appending to `/calendar-events`. */
  method RedirectPath(startDate: Option<string>, endDate: Option<string>) returns (path: string)
    ensures path == RedirectTarget(startDate, endDate)
  {
    RedirectTargetCases(startDate, endDate);
    path := CalendarEventsPath;
    if Truthy(startDate) {
      path := path + "?" + StartKey + "=" + startDate.value;
      if Truthy(endDate) {
        path := path + "&" + EndKey + "=" + endDate.value;
      }
    } else {
      if Truthy(endDate) {
        path := path + "?" + EndKey + "=" + endDate.value;
      }
    }
  }

  /** The four shapes of the redirect path. */
  lemma RedirectTargetCases(startDate: Option<string>, endDate: Option<string>)
    ensures Truthy(startDate) && Truthy(endDate) ==>
      RedirectTarget(startDate, endDate) ==
        CalendarEventsPath + "?" + StartKey + "=" + startDate.value + "&" + EndKey + "=" + endDate.value
    ensures Truthy(startDate) && !Truthy(endDate) ==>
      RedirectTarget(startDate, endDate) == CalendarEventsPath + "?" + StartKey + "=" + startDate.value
    ensures !Truthy(startDate) && Truthy(endDate) ==>
      RedirectTarget(startDate, endDate) == CalendarEventsPath + "?" + EndKey + "=" + endDate.value
    ensures !Truthy(startDate) && !Truthy(endDate) ==>
      RedirectTarget(startDate, endDate) == CalendarEventsPath
  {
    var ps := Present(startDate, endDate);
    if Truthy(startDate) && Truthy(endDate) {
      assert ps == [(StartKey, startDate.value), (EndKey, endDate.value)];
      AppendTwoParams(CalendarEventsPath, StartKey, startDate.value, EndKey, endDate.value);
    } else if Truthy(startDate) {
      assert ps == [(StartKey, startDate.value)];
      AppendOneParam(CalendarEventsPath, StartKey, startDate.value);
    } else if Truthy(endDate) {
      assert ps == [(EndKey, endDate.value)];
      AppendOneParam(CalendarEventsPath, EndKey, endDate.value);
    } else {
      assert ps == [];
    }
  }

  lemma AppendOneParam(path: string, name: string, value: string)
    ensures AppendParams(path, [(name, value)]) == path + "?" + name + "=" + value
  {
    assert [(name, value)][..0] == [];
  }

  lemma AppendTwoParams(path: string, name1: string, value1: string, name2: string, value2: string)
    ensures AppendParams(path, [(name1, value1), (name2, value2)]) ==
      path + "?" + name1 + "=" + value1 + "&" + name2 + "=" + value2
  {
    var ps := [(name1, value1), (name2, value2)];
    assert ps[..1] == [(name1, value1)];
    AppendOneParam(path, name1, value1);
  }

  /** Each appended parameter lengthens the path. */
  lemma {:induction false} AppendParamsGrows(path: string, params: seq<(string, string)>)
    ensures |AppendParams(path, params)| >= |path| + 2 * |params|
    decreases |params|
  {
    if params != [] {
      AppendParamsGrows(path, params[..|params| - 1]);
    }
  }

  /** Appending parameters keeps the path as a prefix. */
  lemma {:induction false} AppendParamsKeepsPath(path: string, params: seq<(string, string)>)
    ensures |AppendParams(path, params)| >= |path|
    ensures AppendParams(path, params)[..|path|] == path
    decreases |params|
  {
    if params != [] {
      var n := |params| - 1;
      AppendParamsKeepsPath(path, params[..n]);
      var before := AppendParams(path, params[..n]);
      var sep := if n == 0 then "?" else "&";
      assert AppendParams(path, params) == before + sep + params[n].0 + "=" + params[n].1;
    }
  }

  /** The number of occurrences of `c` in `s`. */
  function Count(c: char, s: string): nat
  {
    multiset(s)[c]
  }

  /** `base?name=rest` holds the `?`s of `base`, `name` and `rest` and one more. */
  lemma CountFirstParam(base: string, name: string, rest: string)
    ensures Count('?', base + "?" + name + "=" + rest) == Count('?', base) + 1 + Count('?', name) + Count('?', rest)
  {
    assert multiset(base + "?" + name + "=" + rest) ==
      multiset(base) + multiset("?") + multiset(name) + multiset("=") + multiset(rest);
  }

  /** `base?name1=value1&name2=value2` holds the `?`s of its five parts and one more. */
  lemma CountTwoParams(base: string, name1: string, value1: string, name2: string, value2: string)
    ensures Count('?', base + "?" + name1 + "=" + value1 + "&" + name2 + "=" + value2) ==
      Count('?', base) + 1 + Count('?', name1) + Count('?', value1) + Count('?', name2) + Count('?', value2)
  {
    assert multiset(base + "?" + name1 + "=" + value1 + "&" + name2 + "=" + value2) ==
      multiset(base) + multiset("?") + multiset(name1) + multiset("=") + multiset(value1)
      + multiset("&") + multiset(name2) + multiset("=") + multiset(value2);
  }

  /** Neither the page nor the parameter names contain a `?`. */
  lemma NoQuestionMarkInConstants()
    ensures Count('?', CalendarEventsPath) == 0
    ensures Count('?', StartKey) == 0 && Count('?', EndKey) == 0
  {
    assert '?' !in CalendarEventsPath;
    assert '?' !in StartKey;
    assert '?' !in EndKey;
  }

  lemma QuestionMarksBoth(s: string, e: string)
    ensures Count('?', CalendarEventsPath + "?" + StartKey + "=" + s + "&" + EndKey + "=" + e) ==
      1 + Count('?', s) + Count('?', e)
  {
    NoQuestionMarkInConstants();
    CountTwoParams(CalendarEventsPath, StartKey, s, EndKey, e);
  }

  lemma QuestionMarksOne(name: string, v: string)
    requires name == StartKey || name == EndKey
    ensures Count('?', CalendarEventsPath + "?" + name + "=" + v) == 1 + Count('?', v)
  {
    NoQuestionMarkInConstants();
    CountFirstParam(CalendarEventsPath, name, v);
  }

  /**
   * The redirect path always starts with `/calendar-events` and holds one
   * `?` of its own when a bound is present, none otherwise; any further `?`
   * comes from the (unencoded) bound values.
   */
  lemma RedirectTargetQuestionMarks(startDate: Option<string>, endDate: Option<string>)
    ensures |RedirectTarget(startDate, endDate)| >= |CalendarEventsPath|
    ensures RedirectTarget(startDate, endDate)[..|CalendarEventsPath|] == CalendarEventsPath
    ensures Count('?', RedirectTarget(startDate, endDate)) ==
      (if Truthy(startDate) || Truthy(endDate) then 1 else 0)
      + (if Truthy(startDate) then Count('?', startDate.value) else 0)
      + (if Truthy(endDate) then Count('?', endDate.value) else 0)
  {
    AppendParamsKeepsPath(CalendarEventsPath, Present(startDate, endDate));
    RedirectTargetCases(startDate, endDate);
    if Truthy(startDate) && Truthy(endDate) {
      QuestionMarksBoth(startDate.value, endDate.value);
    } else if Truthy(startDate) {
      QuestionMarksOne(StartKey, startDate.value);
    } else if Truthy(endDate) {
      QuestionMarksOne(EndKey, endDate.value);
    } else {
      NoQuestionMarkInConstants();
    }
  }

  /** The value the redirect carries for a parameter name, if any. */
  function ParamValue(params: seq<(string, string)>, name: string): Option<string>
  {
    if params == [] then None
    else if params[0].0 == name then Some(params[0].1)
    else ParamValue(params[1..], name)
  }

  /**
   * Round trip through the OAuth state: the normalised bounds the callback
   * redirects with are read back, and normalised again, as the same bounds.
   */
  lemma RedirectCarriesNormalisedBounds(rawStart: Option<string>, rawEnd: Option<string>)
    ensures var params := Present(NormaliseParam(rawStart), NormaliseParam(rawEnd));
      && NormaliseParam(ParamValue(params, "startDate")) == NormaliseParam(rawStart)
      && NormaliseParam(ParamValue(params, "endDate")) == NormaliseParam(rawEnd)
  {
  }
}
