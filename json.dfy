/** A JSON value as encoding/json hands it to code that decodes into
    interface{} with UseNumber: numbers keep their source text. Also the
    whitespace rule by which json.Unmarshal cuts a value out of its input
    before passing it to a type's own UnmarshalJSON. */
module Json {
  import opened Common

  datatype Json =
    | JNull
    | JBool(b: bool)
    | JNum(text: string)
    | JStr(s: string)
    | JArr(items: seq<Json>)
    | JObj(fields: map<string, Json>)

  /** The word encoding/json uses for a value's kind in an
      UnmarshalTypeError ("cannot unmarshal <kind> into ..."). */
  function KindName(j: Json): string
  {
    match j
    case JNull => "null"
    case JBool(_) => "bool"
    case JNum(_) => "number"
    case JStr(_) => "string"
    case JArr(_) => "array"
    case JObj(_) => "object"
  }

  /** The bytes JSON treats as insignificant whitespace: space, tab,
      line feed and carriage return (RFC 8259, section 2). */
  predicate IsJsonSpace(c: byte)
  {
    c == 0x20 || c == 0x09 || c == 0x0A || c == 0x0D
  }

  predicate AllJsonSpace(b: Bytes)
  {
    forall k :: 0 <= k < |b| ==> IsJsonSpace(b[k])
  }

  /** A run of bytes that neither starts nor ends with whitespace. */
  predicate Trimmed(b: Bytes)
  {
    b == [] || (!IsJsonSpace(b[0]) && !IsJsonSpace(b[|b| - 1]))
  }

  /** The end of the whitespace that starts at position i. */
  function SpaceEnd(b: Bytes, i: nat): (j: nat)
    requires i <= |b|
    ensures i <= j <= |b|
    ensures forall k :: i <= k < j ==> IsJsonSpace(b[k])
    ensures j < |b| ==> !IsJsonSpace(b[j])
    decreases |b| - i
  {
    if i < |b| && IsJsonSpace(b[i]) then SpaceEnd(b, i + 1) else i
  }

  /** The start of the whitespace that ends at position j, looking no
      further back than lo. */
  function SpaceStart(b: Bytes, lo: nat, j: nat): (i: nat)
    requires lo <= j <= |b|
    ensures lo <= i <= j
    ensures forall k :: i <= k < j ==> IsJsonSpace(b[k])
    ensures i > lo ==> !IsJsonSpace(b[i - 1])
    decreases j - lo
  {
    if j > lo && IsJsonSpace(b[j - 1]) then SpaceStart(b, lo, j - 1) else j
  }

  /** The bytes json.Unmarshal passes to an UnmarshalJSON method: the one
      value of a syntactically valid input, without the whitespace around
      it. */
  function TrimJsonSpace(b: Bytes): (r: Bytes)
    ensures Trimmed(r) && |r| <= |b|
  {
    var lo := SpaceEnd(b, 0);
    b[lo..SpaceStart(b, lo, |b|)]
  }

  /** The trimmed value is a contiguous part of the input, with only
      whitespace before and after it. */
  lemma TrimJsonSpaceIsSlice(b: Bytes)
    ensures exists lo, hi :: 0 <= lo <= hi <= |b| && TrimJsonSpace(b) == b[lo..hi]
                             && (forall k :: 0 <= k < lo ==> IsJsonSpace(b[k]))
                             && (forall k :: hi <= k < |b| ==> IsJsonSpace(b[k]))
  {
    var lo := SpaceEnd(b, 0);
    var hi := SpaceStart(b, lo, |b|);
    assert TrimJsonSpace(b) == b[lo..hi];
  }

  /** Whitespace around a value is cut off exactly: trimming any amount of
      whitespace before and after a trimmed value gives back that value. */
  lemma TrimAround(before: Bytes, value: Bytes, after: Bytes)
    requires AllJsonSpace(before) && AllJsonSpace(after) && Trimmed(value)
    ensures TrimJsonSpace(before + value + after) == value
  {
    var b := before + value + after;
    var lo, hi := |before|, |before| + |value|;
    forall k | 0 <= k < lo ensures IsJsonSpace(b[k]) {
      assert b[k] == before[k];
    }
    forall k | hi <= k < |b| ensures IsJsonSpace(b[k]) {
      assert b[k] == after[k - hi];
    }
    if value == [] {
      SpaceEndAt(b, 0, |b|);
      assert b[|b|..|b|] == [];
    } else {
      assert b[lo] == value[0] && b[hi - 1] == value[|value| - 1];
      SpaceEndAt(b, 0, lo);
      SpaceStartAt(b, lo, hi, |b|);
      assert b[lo..hi] == value;
    }
  }

  /** SpaceEnd stops at the first byte that is not whitespace. */
  lemma {:induction false} SpaceEndAt(b: Bytes, i: nat, j: nat)
    requires i <= j <= |b|
    requires forall k :: i <= k < j ==> IsJsonSpace(b[k])
    requires j < |b| ==> !IsJsonSpace(b[j])
    ensures SpaceEnd(b, i) == j
    decreases j - i
  {
    if i < j {
      SpaceEndAt(b, i + 1, j);
    }
  }

  /** SpaceStart stops after the last byte, from lo on, that is not
      whitespace. */
  lemma {:induction false} SpaceStartAt(b: Bytes, lo: nat, i: nat, j: nat)
    requires lo <= i <= j <= |b|
    requires forall k :: i <= k < j ==> IsJsonSpace(b[k])
    requires i > lo ==> !IsJsonSpace(b[i - 1])
    ensures SpaceStart(b, lo, j) == i
    decreases j - i
  {
    if i < j {
      SpaceStartAt(b, lo, i, j - 1);
    }
  }
}
