/** The object key (blob name) under which an uploaded bill is stored
    (UploadBill/__init__.py, lines 40-48):
    `{location_id}_{YYYYMMDD_HHMMSS}[_{truck_id}][_{bill_id}].jpg`. */
module ObjectKey {
  import opened Timestamp

  /** The separator `"_".join` puts between parts. */
  const Separator: string := "_"

  /** The fixed extension, whatever the uploaded file's type or name. */
  const Extension: string := ".jpg"

  /** Python's `sep.join(parts)`: the parts in order, with `sep` between
      neighbours and nowhere else. */
  function Join(sep: string, parts: seq<string>): string {
    if |parts| == 0 then ""
    else if |parts| == 1 then parts[0]
    else parts[0] + sep + Join(sep, parts[1..])
  }

  /** Appending a part to a non-empty list adds one separator and the part
      at the end of the joined string. */
  lemma {:induction false} JoinAppend(sep: string, parts: seq<string>, x: string)
    requires |parts| >= 1
    ensures Join(sep, parts + [x]) == Join(sep, parts) + sep + x
  {
    if |parts| > 1 {
      assert (parts + [x])[1..] == parts[1..] + [x];
      JoinAppend(sep, parts[1..], x);
    }
  }

  /** The text an optional field contributes to the key: nothing when it is
      empty, otherwise a separator and the field. */
  function Segment(field: string): string {
    if field == "" then "" else Separator + field
  }

  /** The key as one equation over the four inputs. Every key begins with the
      location, a separator and the timestamp, and ends with `.jpg`. */
  function Key(locationId: string, timestamp: string, truckId: string, billId: string): (r: string)
    ensures |r| == |locationId| + 1 + |timestamp| + |Segment(truckId)| + |Segment(billId)| + 4
    ensures r[..|locationId| + 1 + |timestamp|] == locationId + "_" + timestamp
    ensures r[|r| - 4..] == ".jpg"
  {
    locationId + Separator + timestamp + Segment(truckId) + Segment(billId) + Extension
  }

  /** The list `filename_parts` ends up holding: location and timestamp,
      then each optional field that is non-empty, in order. */
  function Parts(locationId: string, timestamp: string, truckId: string, billId: string): (p: seq<string>)
    ensures 2 <= |p| <= 4 && p[0] == locationId && p[1] == timestamp
    ensures |p| == 2 + (if truckId == "" then 0 else 1) + (if billId == "" then 0 else 1)
    ensures forall i | 2 <= i < |p| :: p[i] != ""
    ensures truckId != "" ==> p[2] == truckId
    ensures billId != "" ==> p[|p| - 1] == billId
  {
    [locationId, timestamp]
      + (if truckId == "" then [] else [truckId])
      + (if billId == "" then [] else [billId])
  }

  /** Lines 41-48: start the list with location and timestamp, append each
      optional field that is truthy (non-empty), join with `_` and add `.jpg`. */
  method BuildFilename(locationId: string, timestamp: string, truckId: string, billId: string)
    returns (filename: string)
    ensures filename == Key(locationId, timestamp, truckId, billId)
  {
    var parts := [locationId, timestamp];
    assert parts[1..] == [timestamp];
    ghost var prefix := locationId + Separator + timestamp;
    assert Join(Separator, parts) == prefix;
    if truckId != "" {
      AppendSegment(prefix, parts, truckId);
      parts := parts + [truckId];
    }
    prefix := prefix + Segment(truckId);
    assert Join(Separator, parts) == prefix;
    if billId != "" {
      AppendSegment(prefix, parts, billId);
      parts := parts + [billId];
    }
    prefix := prefix + Segment(billId);
    assert Join(Separator, parts) == prefix;
    filename := Join(Separator, parts) + Extension;
  }

  /** The timestamp can be read back from the key at a fixed position after
      the location, so two keys for the same fields differ whenever their
      timestamps of equal width differ. */
  lemma KeyTimestampInjective(locationId: string, ts1: string, ts2: string, truckId: string, billId: string)
    requires |ts1| == |ts2|
    ensures Key(locationId, ts1, truckId, billId) == Key(locationId, ts2, truckId, billId) <==> ts1 == ts2
  {
    var k1, k2 := Key(locationId, ts1, truckId, billId), Key(locationId, ts2, truckId, billId);
    var n := |locationId| + 1;
    if k1 == k2 {
      assert k1[n..n + |ts1|] == ts1;
      assert k2[n..n + |ts2|] == ts2;
    }
  }

  /** With no truck and no bill, the key is just location, timestamp and
      extension: no separator is left behind for the omitted fields. */
  lemma KeyWithoutOptionalFields(locationId: string, timestamp: string)
    ensures Key(locationId, timestamp, "", "") == locationId + "_" + timestamp + ".jpg"
  {
  }

  /** A truck id alone and a bill id alone with the same text give the same
      key: the name does not record which optional field was present. */
  lemma TruckAndBillIndistinguishable(locationId: string, timestamp: string, x: string)
    requires x != ""
    ensures Key(locationId, timestamp, x, "") == Key(locationId, timestamp, "", x)
  {
  }

  /** A location that itself holds `_` can absorb the timestamp: the key
      does not separate its fields unambiguously. */
  lemma SeparatorInFieldCollides(locationId: string, timestamp: string, truckId: string)
    requires truckId != ""
    ensures Key(locationId, timestamp, truckId, "") == Key(locationId + "_" + timestamp, truckId, "", "")
  {
  }

  /** The key for location `store7` at `20240301_100005`, with truck `truck3`
      and bill `B99`, and with neither. */
  lemma KeyExamples()
    ensures Key("store7", "20240301_100005", "truck3", "B99") == "store7_20240301_100005_truck3_B99.jpg"
    ensures Key("store7", "20240301_100005", "", "") == "store7_20240301_100005.jpg"
  {
    var head := "store7" + Separator + "20240301_100005";
    assert head == "store7_20240301_100005";
    assert Segment("truck3") == "_truck3" && Segment("B99") == "_B99" && Segment("") == "";
    assert head + "_truck3" == "store7_20240301_100005_truck3";
    assert "store7_20240301_100005_truck3" + "_B99" == "store7_20240301_100005_truck3_B99";
    assert "store7_20240301_100005_truck3_B99" + Extension == "store7_20240301_100005_truck3_B99.jpg";
    assert head + "" + "" + Extension == "store7_20240301_100005.jpg";
  }

  /** No two consecutive separators anywhere in `s`. */
  predicate NoDoubleSeparator(s: string) {
    forall i | 0 <= i < |s| - 1 :: !(s[i] == '_' && s[i + 1] == '_')
  }

  /** A field that neither begins nor ends with a separator and holds no
      doubled separator. */
  predicate CleanPart(s: string) {
    s != [] && s[0] != '_' && s[|s| - 1] != '_' && NoDoubleSeparator(s)
  }

  lemma {:induction false} NoDoubleSeparatorConcat(a: string, b: string)
    requires NoDoubleSeparator(a) && NoDoubleSeparator(b)
    requires a == [] || b == [] || a[|a| - 1] != '_' || b[0] != '_'
    ensures NoDoubleSeparator(a + b)
  {
    var s := a + b;
    forall i | 0 <= i < |s| - 1 ensures !(s[i] == '_' && s[i + 1] == '_') {
      if i + 1 < |a| {
        assert s[i] == a[i] && s[i + 1] == a[i + 1];
      } else if i >= |a| {
        assert s[i] == b[i - |a|] && s[i + 1] == b[i + 1 - |a|];
      } else {
        assert s[i] == a[|a| - 1] && s[i + 1] == b[0];
      }
    }
  }

  /** Joining clean parts with `_` gives a clean string. */
  lemma {:induction false} JoinClean(parts: seq<string>)
    requires |parts| >= 1
    requires forall i | 0 <= i < |parts| :: CleanPart(parts[i])
    ensures CleanPart(Join(Separator, parts))
  {
    if |parts| > 1 {
      JoinClean(parts[1..]);
      var rest := Join(Separator, parts[1..]);
      NoDoubleSeparatorConcat(parts[0], Separator);
      NoDoubleSeparatorConcat(parts[0] + Separator, rest);
      var s := parts[0] + Separator + rest;
      assert s[0] == parts[0][0];
      assert s[|s| - 1] == rest[|rest| - 1];
    }
  }

  /** Every rendered timestamp is clean: its one `_` sits between digits. */
  lemma TimestampClean(ts: string)
    requires IsTimestampShape(ts)
    ensures CleanPart(ts)
  {
    assert forall i | 0 <= i < 15 && i != 8 :: IsDigit(ts[i]) by {
      assert forall i | 0 <= i < 8 :: ts[i] == ts[..8][i];
      assert forall i | 9 <= i < 15 :: ts[i] == ts[9..][i - 9];
    }
  }

  /** When location, truck and bill are themselves clean (or the optional
      ones empty), the key has no doubled separator and no separator right
      before the extension. */
  lemma KeyHasNoStraySeparator(locationId: string, timestamp: string, truckId: string, billId: string)
    requires CleanPart(locationId) && IsTimestampShape(timestamp)
    requires truckId == "" || CleanPart(truckId)
    requires billId == "" || CleanPart(billId)
    ensures NoDoubleSeparator(Key(locationId, timestamp, truckId, billId))
    ensures Key(locationId, timestamp, truckId, billId)[|Key(locationId, timestamp, truckId, billId)| - 5] != '_'
  {
    var parts := Parts(locationId, timestamp, truckId, billId);
    TimestampClean(timestamp);
    assert forall i | 0 <= i < |parts| :: CleanPart(parts[i]);
    JoinClean(parts);
    KeyIsJoinedParts(locationId, timestamp, truckId, billId);
    var key := Key(locationId, timestamp, truckId, billId);
    var body := Join(Separator, parts);
    NoDoubleSeparatorConcat(body, Extension);
    assert key[|key| - 5] == body[|body| - 1];
  }

  /** One optional field appended to the parts list (or skipped, when
      empty) extends the joined string by exactly that field's segment. */
  lemma AppendSegment(prefix: string, parts: seq<string>, field: string)
    requires |parts| >= 1 && Join(Separator, parts) == prefix
    ensures Join(Separator, if field == "" then parts else parts + [field]) == prefix + Segment(field)
  {
    if field != "" {
      JoinAppend(Separator, parts, field);
      assert prefix + Separator + field == prefix + (Separator + field);
    }
  }

  /** The reference equation and the joined list of parts agree. */
  lemma KeyIsJoinedParts(locationId: string, timestamp: string, truckId: string, billId: string)
    ensures Key(locationId, timestamp, truckId, billId)
         == Join(Separator, Parts(locationId, timestamp, truckId, billId)) + Extension
  {
    var base := [locationId, timestamp];
    assert base[1..] == [timestamp];
    var head := locationId + Separator + timestamp;
    assert Join(Separator, base) == head;
    var withTruck := if truckId == "" then base else base + [truckId];
    AppendSegment(head, base, truckId);
    var all := if billId == "" then withTruck else withTruck + [billId];
    AppendSegment(head + Segment(truckId), withTruck, billId);
    assert Parts(locationId, timestamp, truckId, billId) == all;
  }
}
