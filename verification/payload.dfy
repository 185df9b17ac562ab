/** `check_payload`: the recursive sanitiser that removes empty values from a request payload. */
module Payload {
  import opened Values

  /** The values a sanitised payload never holds: `None`, `''` and an empty dict. */
  predicate Empty(v: Value) {
    v == Null || v == Str("") || v == Dict(map[])
  }

  /** A value is sanitised when no dict inside it, at any depth through dicts, holds an empty value.
      Lists are opaque to the sanitiser, so their elements are not constrained. */
  predicate Sanitised(v: Value) {
    match v
    case Dict(m) => forall k :: k in m ==> !Empty(m[k]) && Sanitised(m[k])
    case _ => true
  }

  /** One entry's value after sanitising: dicts are sanitised recursively, everything else is kept as is. */
  function CleanValue(v: Value): (r: Value)
    ensures !v.Dict? ==> r == v
    ensures v.Dict? ==> r.Dict? && r.entries.Keys <= v.entries.Keys
    ensures Sanitised(r)
    decreases v, 1
  {
    match v
    case Dict(m) => Dict(CheckPayload(m))
    case _ => v
  }

  /** Python's `check_payload(payload)`. */
  function CheckPayload(p: map<string, Value>): (r: map<string, Value>)
    ensures r.Keys <= p.Keys
    // no kept entry is empty, at any depth
    ensures Sanitised(Dict(r))
    // a scalar or list entry is kept unchanged exactly when it is neither None nor ''
    ensures forall k :: k in p && !p[k].Dict? ==> (k in r <==> p[k] != Null && p[k] != Str(""))
    ensures forall k :: k in r && !p[k].Dict? ==> r[k] == p[k]
    // a dict entry is kept, sanitised, exactly when something is left of it
    ensures forall k :: k in p && p[k].Dict? ==> (k in r <==> CleanValue(p[k]) != Dict(map[]))
    ensures forall k :: k in r && p[k].Dict? ==> r[k] == CleanValue(p[k])
    decreases Dict(p), 0
  {
    map k | k in p && !Empty(CleanValue(p[k])) :: CleanValue(p[k])
  }

  /** The sanitiser changes a payload exactly when the payload is not already sanitised. */
  lemma {:induction false} FixedPointIffSanitised(p: map<string, Value>)
    ensures CheckPayload(p) == p <==> Sanitised(Dict(p))
    decreases Dict(p)
  {
    if Sanitised(Dict(p)) {
      forall k | k in p
        ensures k in CheckPayload(p) && CheckPayload(p)[k] == p[k]
      {
        if p[k].Dict? {
          FixedPointIffSanitised(p[k].entries);
        }
      }
      assert CheckPayload(p).Keys == p.Keys;
    }
  }

  /** Sanitising twice is sanitising once. */
  lemma Idempotent(p: map<string, Value>)
    ensures CheckPayload(CheckPayload(p)) == CheckPayload(p)
  {
    FixedPointIffSanitised(CheckPayload(p));
  }

  /** An empty dict entry is always dropped, whatever its key. */
  lemma EmptyDictDropped(p: map<string, Value>, k: string)
    requires k in p && p[k] == Dict(map[])
    ensures k !in CheckPayload(p)
  {
  }

  /** Falsy values other than None and '' survive: `0`, `False` and `[]` are kept. */
  lemma FalsyScalarsKept(p: map<string, Value>, k: string)
    requires k in p && (p[k] == Int(0) || p[k] == Bool(false) || p[k] == List([]))
    ensures k in CheckPayload(p) && CheckPayload(p)[k] == p[k]
  {
  }
}
