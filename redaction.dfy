/**
 * Key-based redaction of a nested PHP array before it is logged. The
 * client (`FlutterwaveService::sanitizeLogData`) and the webhook service
 * (`WebhookService::sanitizeWebhookData`) run the same loop, each with its
 * own list of sensitive key fragments; this module holds that loop once.
 */
module Redaction {
  import opened Values
  import opened Strings

  /** What a redacted scalar is replaced by. */
  const Marker: string := "***REDACTED***"

  /** Some listed fragment occurs in the lower-cased key. */
  predicate IsSensitive(fragments: seq<string>, key: string)
  {
    exists j :: 0 <= j < |fragments| && Contains(Lower(key), fragments[j])
  }

  /**
   * The value the sanitizer leaves under `key`: a nested array is always
   * replaced by its own sanitization (even under a sensitive key); any other
   * value under a sensitive key becomes the marker; the rest is kept.
   */
  function RedactEntry(fragments: seq<string>, key: string, v: Value): Value
    decreases v, 1
  {
    match v
    case Arr(m) => Arr(Redacted(fragments, m))
    case _ => if IsSensitive(fragments, key) then Str(Marker) else v
  }

  /** The sanitized copy of an array. */
  function Redacted(fragments: seq<string>, data: Dict): (r: Dict)
    ensures r.Keys == data.Keys
    ensures forall k :: k in data && data[k].Arr? ==> r[k] == Arr(Redacted(fragments, data[k].m))
    ensures forall k :: k in data && !data[k].Arr? && IsSensitive(fragments, k) ==> r[k] == Str(Marker)
    ensures forall k :: k in data && !data[k].Arr? && !IsSensitive(fragments, k) ==> r[k] == data[k]
    decreases Arr(data), 0
  {
    map k | k in data :: RedactEntry(fragments, k, data[k])
  }

  /**
   * No sensitive scalar is left at any depth: every non-array value under a
   * sensitive key is the marker, in this array and in every nested one.
   */
  predicate CleanEntry(fragments: seq<string>, key: string, v: Value)
    decreases v
  {
    match v
    case Arr(m) => forall k :: k in m ==> CleanEntry(fragments, k, m[k])
    case _ => IsSensitive(fragments, key) ==> v == Str(Marker)
  }

  predicate Clean(fragments: seq<string>, data: Dict)
  {
    forall k :: k in data ==> CleanEntry(fragments, k, data[k])
  }

  lemma {:induction false} RedactEntryIsClean(fragments: seq<string>, key: string, v: Value)
    ensures CleanEntry(fragments, key, RedactEntry(fragments, key, v))
    decreases v
  {
    match v
    case Arr(m) =>
      forall k | k in m
        ensures CleanEntry(fragments, k, RedactEntry(fragments, k, m[k]))
      {
        RedactEntryIsClean(fragments, k, m[k]);
      }
    case _ =>
  }

  lemma {:induction false} CleanEntryIsFixed(fragments: seq<string>, key: string, v: Value)
    requires CleanEntry(fragments, key, v)
    ensures RedactEntry(fragments, key, v) == v
    decreases v
  {
    match v
    case Arr(m) =>
      var m' := Redacted(fragments, m);
      forall k | k in m
        ensures m'[k] == m[k]
      {
        CleanEntryIsFixed(fragments, k, m[k]);
      }
      assert m' == m;
    case _ =>
  }

  /** Redaction is total: its output holds no sensitive scalar at any depth. */
  lemma RedactedIsClean(fragments: seq<string>, data: Dict)
    ensures Clean(fragments, Redacted(fragments, data))
  {
    forall k | k in data
      ensures CleanEntry(fragments, k, RedactEntry(fragments, k, data[k]))
    {
      RedactEntryIsClean(fragments, k, data[k]);
    }
  }

  /** An array with no sensitive scalar left is not changed by redaction. */
  lemma CleanIsFixed(fragments: seq<string>, data: Dict)
    requires Clean(fragments, data)
    ensures Redacted(fragments, data) == data
  {
    forall k | k in data
      ensures RedactEntry(fragments, k, data[k]) == data[k]
    {
      CleanEntryIsFixed(fragments, k, data[k]);
    }
  }

  /** Redacting twice is redacting once, whatever the fragment list. */
  lemma RedactIdempotent(fragments: seq<string>, data: Dict)
    ensures Redacted(fragments, Redacted(fragments, data)) == Redacted(fragments, data)
  {
    RedactedIsClean(fragments, data);
    CleanIsFixed(fragments, Redacted(fragments, data));
  }

  /**
   * The sanitizing loop: walk the entries of a copy, overwrite a sensitive
   * entry with the marker (stopping at the first matching fragment), then
   * overwrite any nested array with its recursive sanitization.
   */
  method Sanitize(fragments: seq<string>, data: Dict) returns (sanitized: Dict)
    ensures sanitized == Redacted(fragments, data)
    decreases Arr(data)
  {
    sanitized := data;
    var pending := data.Keys;
    while pending != {}
      invariant pending <= data.Keys && sanitized.Keys == data.Keys
      invariant forall k :: k in data && k !in pending ==> sanitized[k] == RedactEntry(fragments, k, data[k])
      invariant forall k :: k in pending ==> sanitized[k] == data[k]
      decreases pending
    {
      var key :| key in pending;
      var value := data[key];
      var lowerKey := Lower(key);
      var i := 0;
      while i < |fragments|
        invariant 0 <= i <= |fragments|
        invariant forall j :: 0 <= j < i ==> !Contains(lowerKey, fragments[j])
        invariant sanitized[key] == data[key]
      {
        if Contains(lowerKey, fragments[i]) {
          sanitized := sanitized[key := Str(Marker)];
          break;
        }
        i := i + 1;
      }
      if value.Arr? {
        var nested := Sanitize(fragments, value.m);
        sanitized := sanitized[key := Arr(nested)];
      }
      pending := pending - {key};
    }
  }
}
