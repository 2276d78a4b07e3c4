/** Log redaction and the logging context: values under sensitive keys are
    masked, recursively and to a bounded depth, before structured fields
    reach a log line; the logging context is a context variable that nested
    scopes stack and restore. Neither log formatter reads that variable, so
    its fields do not reach a log line; only the request id does. */
module Logging {
  import opened Outcomes
  import opened Text
  import opened Json

  /** The key fragments that mark a field as sensitive. */
  const SensitiveFields: set<string> := {
    "password", "api_key", "secret", "token", "authorization",
    "cookie", "x-api-key", "virtual_key", "master_key", "salt_key"
  }

  /** Nesting beyond this depth is passed through as it is. */
  const MaxDepth := 10

  /** A key as it is compared: lower case, with `-` and ` ` turned into `_`. */
  function NormalizeKey(key: string): (k: string)
    ensures |k| == |key|
    ensures forall i :: 0 <= i < |k| ==> k[i] != '-' && k[i] != ' ' && !IsUpper(k[i])
    ensures forall i :: 0 <= i < |k| && key[i] != '-' && key[i] != ' ' ==> k[i] == LowerChar(key[i])
  {
    ReplaceChar(ReplaceChar(Lower(key), '-', '_'), ' ', '_')
  }

  /** A key is sensitive when its normalised form contains one of the fragments. */
  predicate IsSensitive(key: string) {
    exists fragment :: fragment in SensitiveFields && Contains(NormalizeKey(key), fragment)
  }

  lemma {:induction false} NoContainsWithoutChar(s: string, sub: string, j: nat)
    requires j < |sub| && !HasChar(s, sub[j])
    ensures !Contains(s, sub)
    decreases |s|
  {
    if |sub| <= |s| {
      assert s[..|sub|][j] == s[j];
    }
    if |s| > 0 {
      NoContainsWithoutChar(s[1..], sub, j);
    }
  }

  /** The fragment `x-api-key` can never match, since a normalised key has
      no `-`; an `X-API-Key` field is still caught, through `api_key`. */
  lemma HyphenatedFragment(key: string)
    ensures !Contains(NormalizeKey(key), "x-api-key")
    ensures IsSensitive("X-API-Key")
  {
    NoContainsWithoutChar(NormalizeKey(key), "x-api-key", 1);
    var k := NormalizeKey("X-API-Key");
    assert k == "x_api_key";
    assert k[2..] == "api_key";
    assert StartsWith(k[2..], "api_key");
    assert Contains(k[1..], "api_key");
    assert Contains(k, "api_key");
  }

  /** What a sensitive value becomes: a string longer than four characters
      keeps its first four and gets `***`; anything else is `***`. */
  function Mask(value: Json): (m: Json)
    ensures m.String? && |m.s| >= 3 && m.s[|m.s| - 3..] == "***"
    ensures |m.s| <= 7
    ensures value.String? && |value.s| > 4 ==> |m.s| == 7 && m.s[..4] == value.s[..4]
    ensures !(value.String? && |value.s| > 4) ==> m == String("***")
  {
    if value.String? && |value.s| > 4 then String(value.s[..4] + "***") else String("***")
  }

  /** Masking a masked value changes nothing. */
  lemma MaskIdempotent(value: Json)
    ensures Mask(Mask(value)) == Mask(value)
  {
    if value.String? && |value.s| > 4 {
      assert Mask(value).s[..4] == value.s[..4];
    }
  }

  /** `redact_sensitive(data, depth)` with redaction switched on or off: an
      object keeps its keys, masking sensitive ones and redacting the other
      values one level deeper; a list is redacted element by element; other
      values, and anything once redaction is off or deeper than the bound,
      are returned as they are. */
  function Redacted(data: Json, depth: nat, enabled: bool): (r: Json)
    decreases MaxDepth + 1 - depth
    ensures !enabled || depth > MaxDepth ==> r == data
    ensures !data.Object? && !data.Array? ==> r == data
    ensures data.Object? ==> r.Object? && r.fields.Keys == data.fields.Keys
    ensures data.Array? ==> r.Array? && |r.items| == |data.items|
    ensures enabled && depth <= MaxDepth && data.Object? ==>
      forall k :: k in data.fields && IsSensitive(k) ==> r.fields[k] == Mask(data.fields[k])
  {
    if !enabled || depth > MaxDepth then data
    else
      match data
      case Object(fields) =>
        Object(map k | k in fields :: if IsSensitive(k) then Mask(fields[k]) else Redacted(fields[k], depth + 1, enabled))
      case Array(items) =>
        Array(seq(|items|, i requires 0 <= i < |items| => Redacted(items[i], depth + 1, enabled)))
      case _ => data
  }

  /** Redaction is idempotent: redacting redacted data at the same depth
      gives it back unchanged. */
  lemma {:induction false} RedactIdempotent(data: Json, depth: nat, enabled: bool)
    decreases MaxDepth + 1 - depth, 1
    ensures Redacted(Redacted(data, depth, enabled), depth, enabled) == Redacted(data, depth, enabled)
  {
    if enabled && depth <= MaxDepth {
      match data
      case Object(fields) => RedactObjectIdempotent(fields, depth);
      case Array(items) => RedactArrayIdempotent(items, depth);
      case _ =>
    }
  }

  /** The object case of `RedactIdempotent`. */
  lemma {:induction false} RedactObjectIdempotent(fields: map<string, Json>, depth: nat)
    requires depth <= MaxDepth
    decreases MaxDepth + 1 - depth, 0
    ensures Redacted(Redacted(Object(fields), depth, true), depth, true) == Redacted(Object(fields), depth, true)
  {
    var once := Redacted(Object(fields), depth, true);
    var twice := Redacted(once, depth, true);
    forall k | k in fields ensures twice.fields[k] == once.fields[k] {
      if IsSensitive(k) {
        MaskIdempotent(fields[k]);
      } else {
        RedactIdempotent(fields[k], depth + 1, true);
      }
    }
    assert twice.fields == once.fields;
  }

  /** The list case of `RedactIdempotent`. */
  lemma {:induction false} RedactArrayIdempotent(items: seq<Json>, depth: nat)
    requires depth <= MaxDepth
    decreases MaxDepth + 1 - depth, 0
    ensures Redacted(Redacted(Array(items), depth, true), depth, true) == Redacted(Array(items), depth, true)
  {
    var once := Redacted(Array(items), depth, true);
    var twice := Redacted(once, depth, true);
    forall i | 0 <= i < |items| ensures twice.items[i] == once.items[i] {
      RedactIdempotent(items[i], depth + 1, true);
    }
    assert twice.items == once.items;
  }

  /** A value under a sensitive key never survives redaction in the clear:
      at most its first four characters remain, followed by `***`. */
  lemma SensitiveValueMasked(fields: map<string, Json>, key: string, depth: nat)
    requires depth <= MaxDepth && key in fields && IsSensitive(key)
    ensures var v := Redacted(Object(fields), depth, true).fields[key];
      && v.String? && |v.s| <= 7 && v.s[|v.s| - 3..] == "***"
      && (fields[key].String? && |fields[key].s| > 4 ==> v.s[..4] == fields[key].s[..4])
  {
  }

  /** `redact_sensitive`, computed the way the source does: a loop over an
      object's fields, a pass over a list's elements. */
  method RedactSensitive(data: Json, depth: nat, enabled: bool) returns (r: Json)
    decreases MaxDepth + 1 - depth, 1
    ensures r == Redacted(data, depth, enabled)
  {
    if !enabled || depth > MaxDepth {
      return data;
    }
    match data
    case Object(fields) =>
      var result := RedactFields(fields, depth, enabled);
      r := Object(result);
    case Array(items) =>
      var out := RedactItems(items, depth, enabled);
      r := Array(out);
    case _ =>
      r := data;
  }

  /** The dictionary branch: every key kept, sensitive values masked, the
      others redacted one level deeper. */
  method RedactFields(fields: map<string, Json>, depth: nat, enabled: bool) returns (result: map<string, Json>)
    requires depth <= MaxDepth
    decreases MaxDepth + 1 - depth, 0
    ensures result.Keys == fields.Keys
    ensures forall k :: k in fields ==>
      result[k] == (if IsSensitive(k) then Mask(fields[k]) else Redacted(fields[k], depth + 1, enabled))
  {
    result := map[];
    var pending := fields.Keys;
    while pending != {}
      invariant pending <= fields.Keys
      invariant result.Keys == fields.Keys - pending
      invariant forall k :: k in result ==>
        result[k] == (if IsSensitive(k) then Mask(fields[k]) else Redacted(fields[k], depth + 1, enabled))
      decreases pending
    {
      var key :| key in pending;
      var value: Json;
      if IsSensitive(key) {
        value := Mask(fields[key]);
      } else {
        value := RedactSensitive(fields[key], depth + 1, enabled);
      }
      result := result[key := value];
      pending := pending - {key};
    }
  }

  /** The list branch: each element redacted one level deeper, in order. */
  method RedactItems(items: seq<Json>, depth: nat, enabled: bool) returns (out: seq<Json>)
    requires depth <= MaxDepth
    decreases MaxDepth + 1 - depth, 0
    ensures |out| == |items|
    ensures forall j :: 0 <= j < |items| ==> out[j] == Redacted(items[j], depth + 1, enabled)
  {
    out := [];
    for i := 0 to |items|
      invariant |out| == i
      invariant forall j :: 0 <= j < i ==> out[j] == Redacted(items[j], depth + 1, enabled)
    {
      var item := RedactSensitive(items[i], depth + 1, enabled);
      out := out + [item];
    }
  }

  /** The logging context shared by one flow of execution: the fields added
      to every line, and the request id. */
  class LogScope {
    var context: map<string, Json>
    var requestId: Option<string>

    constructor ()
      ensures context == map[] && requestId == None
    {
      context, requestId := map[], None;
    }

    /** `set_request_id` */
    method SetRequestId(id: string)
      modifies this
      ensures requestId == Some(id) && context == old(context)
    {
      requestId := Some(id);
    }

    /** `get_request_id` */
    function RequestId(): (id: Option<string>)
      reads this
      ensures id == requestId
    {
      requestId
    }
  }

  /** The token a `set` hands back: the value to restore, and whether it has
      been used (a token restores at most once). */
  datatype Restore = Restore(previous: map<string, Json>, used: bool)

  /** `LogContext(**fields)`: entering merges its fields over the current
      context; exiting puts back exactly what was there before. */
  class LogContext {
    const fields: map<string, Json>
    var token: Option<Restore>

    constructor (fields: map<string, Json>)
      ensures this.fields == fields && token == None
    {
      this.fields, token := fields, None;
    }

    /** `__enter__` */
    method Enter(scope: LogScope)
      modifies this, scope
      ensures scope.context == old(scope.context) + fields
      ensures token == Some(Restore(old(scope.context), false))
      ensures scope.requestId == old(scope.requestId)
    {
      token := Some(Restore(scope.context, false));
      scope.context := scope.context + fields;
    }

    /** `__exit__`: restores the context saved on entry. Exiting a context
        never entered does nothing; exiting twice is refused (`ok` false),
        as the second use of the token raises. */
    method Exit(scope: LogScope) returns (ok: bool)
      modifies this, scope
      ensures scope.requestId == old(scope.requestId)
      ensures old(token).None? ==> ok && scope.context == old(scope.context) && token == old(token)
      ensures old(token).Some? && old(token).value.used ==>
        !ok && scope.context == old(scope.context) && token == old(token)
      ensures old(token).Some? && !old(token).value.used ==>
        && ok && scope.context == old(token).value.previous
        && token == Some(old(token).value.(used := true))
    {
      ok := true;
      if token.Some? {
        if token.value.used {
          return false;
        }
        scope.context := token.value.previous;
        token := Some(token.value.(used := true));
      }
    }
  }

  /** Nested contexts behave as a stack: inside both, the inner fields win
      over the outer ones, which win over what was there; leaving the inner
      one restores the outer context, leaving the outer one the original. */
  method Nested(scope: LogScope, outer: LogContext, inner: LogContext)
    returns (insideBoth: map<string, Json>, afterInner: map<string, Json>, afterOuter: map<string, Json>)
    requires outer != inner
    modifies scope, outer, inner
    ensures insideBoth == old(scope.context) + outer.fields + inner.fields
    ensures afterInner == old(scope.context) + outer.fields
    ensures afterOuter == old(scope.context) && scope.context == old(scope.context)
  {
    outer.Enter(scope);
    inner.Enter(scope);
    insideBoth := scope.context;
    var _ := inner.Exit(scope);
    afterInner := scope.context;
    var _ := outer.Exit(scope);
    afterOuter := scope.context;
  }
}
