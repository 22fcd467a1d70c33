/** `_sanitize_log_data` of `app.py`: the copy of a request body that is
    written to the log, with the values of sensitive keys masked at every
    depth. */
module LogSanitizer {
  import opened Values

  const SensitiveKeys: set<string> := {"password", "token", "secret", "api_key"}

  const Mask: Value := VStr("******")

  predicate IsContainer(v: Value)
  {
    v.VDict? || v.VList?
  }

  /** `_sanitize_log_data(data)`: in a mapping, a sensitive key's value
      becomes the mask and every other container value is sanitised; a list
      is sanitised item by item; anything else is returned as it is. */
  function Sanitize(v: Value): Value
    decreases v
  {
    match v
    case VDict(m) =>
      VDict(map k | k in m :: if k in SensitiveKeys then Mask else if IsContainer(m[k]) then Sanitize(m[k]) else m[k])
    case VList(xs) => VList(seq(|xs|, i requires 0 <= i < |xs| => Sanitize(xs[i])))
    case _ => v
  }

  /** No sensitive key anywhere in the value holds anything but the mask. */
  predicate Masked(v: Value)
    decreases v
  {
    match v
    case VDict(m) => forall k :: k in m ==> (k in SensitiveKeys ==> m[k] == Mask) && Masked(m[k])
    case VList(xs) => forall i :: 0 <= i < |xs| ==> Masked(xs[i])
    case _ => true
  }

  /** The result is masked at every depth. */
  lemma {:induction false} SanitizeMasks(v: Value)
    ensures Masked(Sanitize(v))
    decreases v
  {
    match v
    case VDict(m) =>
      var r := Sanitize(v).fields;
      forall k | k in r
        ensures Masked(r[k])
      {
        if k !in SensitiveKeys && IsContainer(m[k]) {
          SanitizeMasks(m[k]);
        }
      }
    case VList(xs) =>
      forall i | 0 <= i < |xs|
        ensures Masked(Sanitize(xs[i]))
      {
        SanitizeMasks(xs[i]);
      }
    case _ =>
  }

  /** Sanitising keeps the shape: a mapping keeps its keys, a list its
      length, non-sensitive scalar values are kept, and a value that is not
      a container comes back as it is. */
  lemma SanitizeShape(v: Value)
    ensures !IsContainer(v) ==> Sanitize(v) == v
    ensures v.VDict? ==> Sanitize(v).VDict? && Sanitize(v).fields.Keys == v.fields.Keys
    ensures v.VDict? ==> forall k :: k in v.fields && k !in SensitiveKeys && !IsContainer(v.fields[k]) ==>
      Sanitize(v).fields[k] == v.fields[k]
    ensures v.VList? ==> Sanitize(v).VList? && |Sanitize(v).items| == |v.items|
  {
  }

  /** Sanitising twice is sanitising once. */
  lemma {:induction false} SanitizeIdempotent(v: Value)
    ensures Sanitize(Sanitize(v)) == Sanitize(v)
    decreases v
  {
    match v
    case VDict(m) =>
      var once := Sanitize(v).fields;
      var twice := Sanitize(Sanitize(v)).fields;
      forall k | k in m
        ensures twice[k] == once[k]
      {
        if k !in SensitiveKeys && IsContainer(m[k]) {
          SanitizeIdempotent(m[k]);
          assert IsContainer(once[k]);
        }
      }
      assert twice == once;
    case VList(xs) =>
      var once := Sanitize(v).items;
      var twice := Sanitize(Sanitize(v)).items;
      forall i | 0 <= i < |xs|
        ensures twice[i] == once[i]
      {
        SanitizeIdempotent(xs[i]);
      }
      assert twice == once;
    case _ =>
  }
}
