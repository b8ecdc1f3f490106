/**
  The dynamically typed dictionary values (`[String: Any]`) both list
  popovers read their rows from, and Swift's `as?` casts on them.
 */
module AnyValues {
  import opened Wrappers

  /** A value stored in a row dictionary: a string, a boolean, an image (by handle) or anything else. */
  datatype Value = Str(text: string) | Flag(flag: bool) | Picture(handle: nat) | OtherValue

  /** `dictionary[key] as? String`. */
  function StringAt(fields: map<string, Value>, key: string): Option<string> {
    if key in fields && fields[key].Str? then Some(fields[key].text) else None
  }

  /** `dictionary[key] as? UIImage`. */
  function PictureAt(fields: map<string, Value>, key: string): Option<nat> {
    if key in fields && fields[key].Picture? then Some(fields[key].handle) else None
  }

  /** `records.compactMap({ $0[key] as? String })`: the string values under `key`, in order. */
  function StringsUnder(records: seq<map<string, Value>>, key: string): (r: seq<string>)
    ensures |r| <= |records|
    ensures forall i :: 0 <= i < |records| && StringAt(records[i], key).None? ==> |r| < |records|
  {
    if |records| == 0 then []
    else
      var rest := StringsUnder(records[1..], key);
      assert forall i :: 1 <= i < |records| ==> records[i] == records[1..][i - 1];
      (if StringAt(records[0], key).Some? then [StringAt(records[0], key).value] else []) + rest
  }

  /** The positions, from `from` on, of the records holding a string under `key`, in increasing order. */
  function StringPositions(records: seq<map<string, Value>>, key: string, from: nat): seq<nat>
    decreases |records| - from
  {
    if from >= |records| then []
    else (if StringAt(records[from], key).Some? then [from] else []) + StringPositions(records, key, from + 1)
  }

  /**
    `compactMap` keeps exactly the string values: the k-th result is the
    string of the k-th record that holds one, the positions increase, and a
    record contributes iff it holds a string.
   */
  lemma {:induction false} StringsUnderPicksStrings(records: seq<map<string, Value>>, key: string, from: nat)
    requires from <= |records|
    ensures var r := StringsUnder(records[from..], key);
      var p := StringPositions(records, key, from);
      && |r| == |p|
      && (forall k :: 0 <= k < |p| ==> from <= p[k] < |records| && StringAt(records[p[k]], key) == Some(r[k]))
      && (forall k, l :: 0 <= k < l < |p| ==> p[k] < p[l])
      && (forall j :: from <= j < |records| ==> (StringAt(records[j], key).Some? <==> j in p))
    decreases |records| - from
  {
    if from < |records| {
      StringsUnderPicksStrings(records, key, from + 1);
      assert records[from..][0] == records[from];
      assert records[from..][1..] == records[from + 1..];
    }
  }

  /** Every record holding a string under `key` contributes it, in order. */
  lemma {:induction false} StringsUnderAll(records: seq<map<string, Value>>, key: string)
    requires forall i :: 0 <= i < |records| ==> StringAt(records[i], key).Some?
    ensures |StringsUnder(records, key)| == |records|
    ensures forall i :: 0 <= i < |records| ==> StringsUnder(records, key)[i] == StringAt(records[i], key).value
  {
    if |records| > 0 {
      StringsUnderAll(records[1..], key);
    }
  }
}
