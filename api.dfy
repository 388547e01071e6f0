/** The client's endpoint table and `formatEndpoint`, which fills the
    `:name` placeholders of an endpoint path from a list of parameters. */
module Api {
  import opened Wrappers

  const StatusEndpoint: string := "/payments/status/:orderId"
  const InitiateEndpoint: string := "/payments/initiate"

  /** `pattern` occurs in `s` starting at index `i`. */
  predicate OccursAt(s: string, pattern: string, i: nat) {
    i + |pattern| <= |s| && s[i..i + |pattern|] == pattern
  }

  /** `s.indexOf(pattern, from)`: the least index at or after `from` where
      `pattern` occurs. */
  function IndexFrom(s: string, pattern: string, from: nat): (r: Option<nat>)
    ensures r.Some? ==> from <= r.value && OccursAt(s, pattern, r.value)
    ensures forall j: nat :: from <= j && (r.None? || j < r.value) ==> !OccursAt(s, pattern, j)
    decreases |s| - from
  {
    if from + |pattern| > |s| then None
    else if s[from..from + |pattern|] == pattern then Some(from)
    else IndexFrom(s, pattern, from + 1)
  }

  /** `s.indexOf(pattern)`. */
  function IndexOf(s: string, pattern: string): Option<nat> {
    IndexFrom(s, pattern, 0)
  }

  /** `s.replace(pattern, value)` with a string pattern: the first
      occurrence, if any, is replaced. */
  function ReplaceFirst(s: string, pattern: string, value: string): (r: string)
    ensures IndexOf(s, pattern).None? ==> r == s
    ensures IndexOf(s, pattern).Some? ==>
      var i := IndexOf(s, pattern).value;
      && (forall j: nat :: j < i ==> !OccursAt(s, pattern, j))
      && OccursAt(s, pattern, i)
      && r == s[..i] + value + s[i + |pattern|..]
      && |r| == |s| - |pattern| + |value|
  {
    match IndexOf(s, pattern)
    case None => s
    case Some(i) => s[..i] + value + s[i + |pattern|..]
  }

  /** The placeholder a parameter named `key` fills. */
  function Placeholder(key: string): string {
    ":" + key
  }

  /** No ':' in `s`, so no placeholder either. */
  predicate NoColon(s: string) {
    forall i :: 0 <= i < |s| ==> s[i] != ':'
  }

  /** The parameters applied one after the other, in key order, each to the
      output of the ones before it. An endpoint without ':' holds no
      placeholder and comes back unchanged, whatever the parameters. */
  function FormatAll(endpoint: string, params: seq<(string, string)>): (r: string)
    ensures NoColon(endpoint) ==> r == endpoint
    decreases |params|
  {
    if params == [] then endpoint
    else
      var last := params[|params| - 1];
      var prev := FormatAll(endpoint, params[..|params| - 1]);
      NoColonNoPlaceholder(prev, last.0);
      ReplaceFirst(prev, Placeholder(last.0), last.1)
  }

  /** `formatEndpoint(endpoint, params)`. */
  method FormatEndpoint(endpoint: string, params: seq<(string, string)>) returns (r: string)
    ensures r == FormatAll(endpoint, params)
  {
    r := endpoint;
    var i := 0;
    while i < |params|
      invariant 0 <= i <= |params|
      invariant r == FormatAll(endpoint, params[..i])
    {
      assert params[..i + 1][..i] == params[..i];
      r := ReplaceFirst(r, Placeholder(params[i].0), params[i].1);
      i := i + 1;
    }
    assert params[..i] == params;
  }

  /** No parameters: the endpoint is returned as it is. */
  lemma FormatNoParams(endpoint: string)
    ensures FormatAll(endpoint, []) == endpoint
  {
  }

  /** Applying one more parameter acts on the output of the ones before. */
  lemma FormatAppend(endpoint: string, params: seq<(string, string)>, key: string, value: string)
    ensures FormatAll(endpoint, params + [(key, value)])
         == ReplaceFirst(FormatAll(endpoint, params), Placeholder(key), value)
  {
    assert (params + [(key, value)])[..|params|] == params;
  }

  /** A string without a colon holds no placeholder. */
  lemma NoColonNoPlaceholder(s: string, key: string)
    ensures NoColon(s) ==> IndexOf(s, Placeholder(key)).None?
  {
    var p := Placeholder(key);
    forall j: nat | NoColon(s) ensures !OccursAt(s, p, j) {
      if j + |p| <= |s| {
        assert s[j..j + |p|][0] == s[j];
      }
    }
  }

  /** The status endpoint filled with an order id: the id takes the
      placeholder's place. */
  lemma FormatStatus(id: string)
    ensures FormatAll(StatusEndpoint, [("orderId", id)]) == "/payments/status/" + id
  {
    var s := StatusEndpoint;
    var p := Placeholder("orderId");
    assert OccursAt(s, p, 17);
    forall j: nat | j < 17 ensures !OccursAt(s, p, j) {
      if j + |p| <= |s| {
        assert s[j..j + |p|][0] == s[j];
      }
    }
    assert IndexOf(s, p) == Some(17);
    assert [("orderId", id)][..0] == [];
    assert s[..17] == "/payments/status/";
    assert s[17 + |p|..] == "";
  }

  /** Only the first occurrence of a placeholder is filled: after a
      colon-free prefix, the placeholder is replaced and the rest of the
      endpoint, which may hold the same placeholder again, is kept as is. */
  lemma FirstOccurrenceOnly(pre: string, key: string, value: string, rest: string)
    requires NoColon(pre)
    ensures FormatAll(pre + Placeholder(key) + rest, [(key, value)]) == pre + value + rest
  {
    var p := Placeholder(key);
    var s := pre + p + rest;
    assert s[|pre|..|pre| + |p|] == p;
    assert OccursAt(s, p, |pre|);
    forall j: nat | j < |pre| ensures !OccursAt(s, p, j) {
      if j + |p| <= |s| {
        assert s[j..j + |p|][0] == s[j] == pre[j];
      }
    }
    assert IndexOf(s, p) == Some(|pre|);
    assert [(key, value)][..0] == [];
    assert s[..|pre|] == pre && s[|pre| + |p|..] == rest;
  }

  /** Keys apply in order, each to the output of the ones before: a key
      that is a prefix of a later placeholder's name fills that placeholder
      first and leaves the rest of the name behind, so the later key finds
      nothing to fill. */
  lemma EarlierKeyCapturesLongerPlaceholder(pre: string, key: string, tail: string, v1: string, v2: string)
    requires NoColon(pre) && NoColon(tail) && NoColon(v1)
    ensures FormatAll(pre + Placeholder(key + tail), [(key, v1), (key + tail, v2)]) == pre + v1 + tail
  {
    var s := pre + Placeholder(key + tail);
    assert s == pre + Placeholder(key) + tail;
    FirstOccurrenceOnly(pre, key, v1, tail);
    var params := [(key, v1), (key + tail, v2)];
    assert params[..1] == [(key, v1)];
    var t := pre + v1 + tail;
    assert NoColon(t);
    NoColonNoPlaceholder(t, key + tail);
  }
}
