/**
 * The web build's API key lookup (`ApiKeyUtil.getRawgApiKey` for wasmJs): the
 * value of the first `apiKey=` parameter of the page's query string, or a
 * placeholder. The query string (`window.location.search`) is a parameter.
 */
module ApiKeyUtil {
  import opened Wrappers
  import opened KotlinText

  const Placeholder: string := "YOUR_ACTUAL_RAWG_API_KEY_HERE"
  const ApiKeyName: string := "apiKey"

  /** A parameter whose `split("=")` has exactly two parts, the first "apiKey". */
  predicate IsApiKeyParam(param: string) {
    var keyValue := Split(param, '=');
    |keyValue| == 2 && keyValue[0] == ApiKeyName
  }

  /**
   * The `for` loop over the parameters: the value of the first one that is an
   * API key parameter; parameters before it, malformed or not, are skipped.
   */
  function FirstApiKey(params: seq<string>): (r: Option<string>)
    ensures r.None? <==> forall i :: 0 <= i < |params| ==> !IsApiKeyParam(params[i])
    ensures r.Some? ==> exists i :: (0 <= i < |params| && IsApiKeyParam(params[i])
      && r.value == Split(params[i], '=')[1] && forall j :: 0 <= j < i ==> !IsApiKeyParam(params[j]))
  {
    if params == [] then None
    else if IsApiKeyParam(params[0]) then Some(Split(params[0], '=')[1])
    else
      var r := FirstApiKey(params[1..]);
      assert forall i :: 0 < i < |params| ==> params[i] == params[1..][i - 1];
      if r.Some? then
        var i :| 0 <= i < |params[1..]| && IsApiKeyParam(params[1..][i])
          && r.value == Split(params[1..][i], '=')[1] && forall j :: 0 <= j < i ==> !IsApiKeyParam(params[1..][j]);
        assert IsApiKeyParam(params[i + 1]) && forall j :: 0 <= j < i + 1 ==> !IsApiKeyParam(params[j]);
        r
      else
        r
  }

  /**
   * `getRawgApiKey()` on the query string `search`: an empty one gives the
   * placeholder; otherwise its first character is dropped, whatever it is, and
   * the rest is split on '&'.
   */
  function GetRawgApiKey(search: string): (key: string)
    ensures search == "" ==> key == Placeholder
    ensures search != "" && key != Placeholder ==> FirstApiKey(Split(search[1..], '&')) == Some(key)
    ensures search != "" && FirstApiKey(Split(search[1..], '&')).None? ==> key == Placeholder
    ensures search != "" ==> key == FirstApiKey(Split(search[1..], '&')).GetOr(Placeholder)
  {
    if search == "" then Placeholder
    else
      var params := Split(search[1..], '&');
      match FirstApiKey(params)
      case Some(value) => value
      case None => Placeholder
  }

  // ---------------------------------------------------------------------------
  // What the lookup promises

  /**
   * A parameter is an API key parameter with value `v` exactly when it is
   * "apiKey=" followed by `v`, and `v` holds no further '='.
   */
  lemma ApiKeyParamShape(param: string, v: string)
    ensures (IsApiKeyParam(param) && Split(param, '=')[1] == v) <==> (param == "apiKey=" + v && '=' !in v)
  {
    var parts := [ApiKeyName, v];
    assert Join(parts, '=') == ApiKeyName + ['='] + v by {
      assert parts[1..] == [v];
    }
    assert "apiKey=" + v == ApiKeyName + ['='] + v;
    if param == "apiKey=" + v && '=' !in v {
      assert '=' !in ApiKeyName;
      SplitUnique(param, '=', parts);
    }
    if IsApiKeyParam(param) && Split(param, '=')[1] == v {
      var kv := Split(param, '=');
      assert kv[1..] == [v];
      assert param == Join(kv, '=') == kv[0] + ['='] + Join(kv[1..], '=');
      assert '=' !in kv[1];
    }
  }

  /** Skipped parameters in front of the first API key parameter do not change what is found. */
  lemma {:induction false} FirstApiKeyAfterSkipped(before: seq<string>, p: string, after: seq<string>)
    requires forall i :: 0 <= i < |before| ==> !IsApiKeyParam(before[i])
    requires IsApiKeyParam(p)
    ensures FirstApiKey(before + [p] + after) == Some(Split(p, '=')[1])
  {
    if before != [] {
      assert (before + [p] + after)[1..] == before[1..] + [p] + after;
      assert (before + [p] + after)[0] == before[0];
      FirstApiKeyAfterSkipped(before[1..], p, after);
    } else {
      assert before + [p] + after == [p] + after;
    }
  }

  /** "apiKey=" + v holds no '&' when v holds none. */
  lemma ApiKeyParamFreeOf(v: string, c: char)
    requires c != '=' && c !in ApiKeyName && c !in v
    ensures c !in "apiKey=" + v
  {
    var p := "apiKey=" + v;
    forall k | 0 <= k < |p| ensures p[k] != c {
      if k < 7 { assert p[k] == "apiKey="[k]; } else { assert p[k] == v[k - 7]; }
    }
  }

  /** No piece of `before + [p] + after` holds `c` when none of its parts does. */
  lemma PiecesFreeOf(before: seq<string>, p: string, after: seq<string>, c: char)
    requires forall i :: 0 <= i < |before| ==> c !in before[i]
    requires forall i :: 0 <= i < |after| ==> c !in after[i]
    requires c !in p
    ensures forall i :: 0 <= i < |before + [p] + after| ==> c !in (before + [p] + after)[i]
  {
    var params := before + [p] + after;
    forall i | 0 <= i < |params| ensures c !in params[i] {
      if i < |before| {
        assert params[i] == before[i];
      } else if i == |before| {
        assert params[i] == p;
      } else {
        assert params[i] == after[i - |before| - 1];
      }
    }
  }

  /** Splitting the joined parameters on '&' gives them back when none holds a '&'. */
  lemma SplitJoinedParams(before: seq<string>, v: string, after: seq<string>)
    requires forall i :: 0 <= i < |before| ==> '&' !in before[i]
    requires forall i :: 0 <= i < |after| ==> '&' !in after[i]
    requires '&' !in v
    ensures Split(Join(before + ["apiKey=" + v] + after, '&'), '&') == before + ["apiKey=" + v] + after
  {
    var p := "apiKey=" + v;
    var params := before + [p] + after;
    ApiKeyParamFreeOf(v, '&');
    PiecesFreeOf(before, p, after, '&');
    SplitUnique(Join(params, '&'), '&', params);
  }

  /** The scan finds "apiKey=" + v behind parameters it skips. */
  lemma FindsApiKeyParam(before: seq<string>, v: string, after: seq<string>)
    requires forall i :: 0 <= i < |before| ==> !IsApiKeyParam(before[i])
    requires '=' !in v
    ensures FirstApiKey(before + ["apiKey=" + v] + after) == Some(v)
  {
    var p := "apiKey=" + v;
    ApiKeyParamShape(p, v);
    FirstApiKeyAfterSkipped(before, p, after);
  }

  /**
   * A query string of any one leading character (normally '?') and then
   * parameters joined by '&', whose first API key parameter is "apiKey=" + v,
   * gives `v`.
   */
  lemma ReadsFirstApiKey(lead: char, before: seq<string>, v: string, after: seq<string>)
    requires forall i :: 0 <= i < |before| ==> '&' !in before[i] && !IsApiKeyParam(before[i])
    requires forall i :: 0 <= i < |after| ==> '&' !in after[i]
    requires '&' !in v && '=' !in v
    ensures GetRawgApiKey([lead] + Join(before + ["apiKey=" + v] + after, '&')) == v
  {
    var joined := Join(before + ["apiKey=" + v] + after, '&');
    SplitJoinedParams(before, v, after);
    FindsApiKeyParam(before, v, after);
    AfterLead(lead, joined);
  }

  /** Whatever the leading character, the parameters are read from the text after it. */
  lemma AfterLead(lead: char, rest: string)
    ensures GetRawgApiKey([lead] + rest) == FirstApiKey(Split(rest, '&')).GetOr(Placeholder)
  {
    assert ([lead] + rest)[1..] == rest;
  }

  /** "apiKey=" with nothing after it gives the empty key, not the placeholder. */
  lemma EmptyValueIsKept()
    ensures GetRawgApiKey("?apiKey=") == ""
  {
    ReadsFirstApiKey('?', [], "", []);
    assert "?" + Join([] + ["apiKey=" + ""] + [], '&') == "?apiKey=";
  }

  /** A parameter "apiKey=" + v is skipped when `v` holds another '='. */
  lemma ExtraEqualsIsNotApiKeyParam(v: string)
    requires '=' in v
    ensures !IsApiKeyParam("apiKey=" + v)
  {
    OccurrencesAppend("apiKey=", v, '=');
    OccurrencesPositive(v, '=');
    assert Occurrences("apiKey=", '=') == 1;
  }

  /** A parameter with no '=' is skipped, whatever it starts with. */
  lemma NoEqualsIsNotApiKeyParam(param: string)
    requires '=' !in param
    ensures !IsApiKeyParam(param)
  {
    SplitWithoutDelimiter(param, '=');
  }

  /** The query string of two "apiKey=" parameters, written out. */
  lemma TwoParamQuery(v: string, k: string)
    ensures "?" + Join(["apiKey=" + v] + ["apiKey=" + k] + [], '&') == "?apiKey=" + v + "&apiKey=" + k
  {
    var params := ["apiKey=" + v] + ["apiKey=" + k] + [];
    assert params[1..] == ["apiKey=" + k];
  }

  /** An "apiKey=" parameter whose value holds another '=' is passed over for a later well-formed one. */
  lemma SkipsParamWithTwoEquals(v: string, k: string)
    requires '=' in v && '&' !in v
    requires '=' !in k && '&' !in k
    ensures GetRawgApiKey("?apiKey=" + v + "&apiKey=" + k) == k
  {
    ExtraEqualsIsNotApiKeyParam(v);
    ApiKeyParamFreeOf(v, '&');
    ReadsFirstApiKey('?', ["apiKey=" + v], k, []);
    TwoParamQuery(v, k);
  }

  /** The first character is dropped even when it is not '?': the key is then not found. */
  lemma FirstCharacterAlwaysDropped()
    ensures GetRawgApiKey("apiKey=abc") == Placeholder
  {
    var rest := "piKey=abc";
    assert "apiKey=abc"[1..] == rest;
    SplitWithoutDelimiter(rest, '&');
  }
}
