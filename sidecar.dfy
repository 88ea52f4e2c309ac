/**
 * The sidecar metadata file: which records are kept, what is stored for each,
 * and how the stored value yields the objects of one frame.
 */
module Sidecar {
  import opened Wrappers
  import opened Wire
  import opened Paths

  /** One top-level JSON object of the sidecar file. */
  type Record = map<string, Json>

  /** The sidecar files that exist, each already split into its decoded records. */
  type Files = map<Path, seq<Record>>

  /** A record is dropped only when it names a schema other than "VideoFrame". */
  predicate IsVideoFrameMetadata(record: Record): (keep: bool)
    ensures "schema" !in record ==> keep
    ensures keep <==> "schema" !in record || record["schema"] == JString("VideoFrame")
  {
    if "schema" in record && record["schema"] != JString("VideoFrame") then false else true
  }

  /** `filter(is_videoframe_metadata, records)`, in file order. */
  function FrameRecords(records: seq<Record>): (kept: seq<Record>)
    ensures |kept| <= |records|
    decreases |records|
  {
    if records == [] then []
    else (if IsVideoFrameMetadata(records[0]) then [records[0]] else []) + FrameRecords(records[1..])
  }

  /** The kept records are exactly the records of the file that pass the filter. */
  lemma {:induction false} FrameRecordsFilter(records: seq<Record>)
    ensures forall k :: 0 <= k < |FrameRecords(records)| ==>
      IsVideoFrameMetadata(FrameRecords(records)[k]) && FrameRecords(records)[k] in records
    ensures forall r :: r in records && IsVideoFrameMetadata(r) ==> r in FrameRecords(records)
    decreases |records|
  {
    if records != [] {
      var tail := records[1..];
      FrameRecordsFilter(tail);
      var rest := FrameRecords(tail);
      var kept := FrameRecords(records);
      if IsVideoFrameMetadata(records[0]) {
        assert kept == [records[0]] + rest;
        forall k | 0 <= k < |kept|
          ensures IsVideoFrameMetadata(kept[k]) && kept[k] in records
        {
          if k > 0 {
            assert kept[k] == rest[k - 1];
          }
        }
      } else {
        assert kept == rest;
      }
      forall r | r in records && IsVideoFrameMetadata(r) ensures r in kept {
        if r != records[0] {
          assert r in tail;
        }
      }
    }
  }

  /** A single record is kept, once, exactly when it passes the filter. */
  lemma FrameRecordsSingle(record: Record)
    ensures FrameRecords([record]) == if IsVideoFrameMetadata(record) then [record] else []
  {
    assert [record][1..] == [];
  }

  /**
   * Filtering two stretches of the file one after the other keeps what
   * filtering the whole keeps: each passing record once, in file order.
   */
  lemma {:induction false} FrameRecordsAppend(a: seq<Record>, b: seq<Record>)
    ensures FrameRecords(a + b) == FrameRecords(a) + FrameRecords(b)
    decreases |a|
  {
    if a == [] {
      assert a + b == b;
    } else {
      assert (a + b)[0] == a[0] && (a + b)[1..] == a[1..] + b;
      FrameRecordsAppend(a[1..], b);
      var head := if IsVideoFrameMetadata(a[0]) then [a[0]] else [];
      assert FrameRecords(a + b) == head + (FrameRecords(a[1..]) + FrameRecords(b));
      assert FrameRecords(a) == head + FrameRecords(a[1..]);
    }
  }

  /**
   * `list(map(lambda x: x['metadata'], filter(...)))`: records are taken one at a
   * time, so the first kept record without 'metadata' raises.
   */
  function MetadataOf(records: seq<Record>): (r: Result<seq<Json>, Failure>)
    ensures r.Err? ==> r.error == MissingMetadataKey
    ensures r.Ok? ==> |r.value| <= |records|
    decreases |records|
  {
    if records == [] then Ok([])
    else if !IsVideoFrameMetadata(records[0]) then MetadataOf(records[1..])
    else if "metadata" !in records[0] then Err(MissingMetadataKey)
    else
      match MetadataOf(records[1..])
      case Ok(rest) => Ok([records[0]["metadata"]] + rest)
      case Err(e) => Err(e)
  }

  /** Every kept record has a 'metadata' key. */
  predicate AllHaveMetadata(kept: seq<Record>)
  {
    forall k :: 0 <= k < |kept| ==> "metadata" in kept[k]
  }

  /**
   * Loading fails exactly when a kept record lacks 'metadata'; otherwise it
   * yields the 'metadata' value of every kept record, in file order.
   */
  lemma {:induction false} MetadataOfKeptRecords(records: seq<Record>)
    ensures MetadataOf(records).Ok? <==> AllHaveMetadata(FrameRecords(records))
    ensures MetadataOf(records).Err? ==> MetadataOf(records).error == MissingMetadataKey
    ensures MetadataOf(records).Ok? ==>
      var kept := FrameRecords(records);
      |MetadataOf(records).value| == |kept| &&
      forall k :: 0 <= k < |kept| ==> MetadataOf(records).value[k] == kept[k]["metadata"]
    decreases |records|
  {
    if records != [] {
      var head, tail := records[0], records[1..];
      MetadataOfKeptRecords(tail);
      var rest := FrameRecords(tail);
      if !IsVideoFrameMetadata(head) {
        assert FrameRecords(records) == rest;
      } else if "metadata" !in head {
        var kept := [head] + rest;
        assert FrameRecords(records) == kept;
        assert kept[0] == head;
      } else {
        var kept := [head] + rest;
        assert FrameRecords(records) == kept;
        assert AllHaveMetadata(kept) <==> AllHaveMetadata(rest) by {
          if AllHaveMetadata(rest) {
            forall k | 0 <= k < |kept| ensures "metadata" in kept[k] {
              if k > 0 {
                assert kept[k] == rest[k - 1];
              }
            }
          }
          if AllHaveMetadata(kept) {
            forall k | 0 <= k < |rest| ensures "metadata" in rest[k] {
              assert rest[k] == kept[k + 1];
            }
          }
        }
        if MetadataOf(tail).Ok? {
          var values := [head["metadata"]] + MetadataOf(tail).value;
          assert MetadataOf(records) == Ok(values);
          forall k | 0 <= k < |kept| ensures values[k] == kept[k]["metadata"] {
            if k > 0 {
              assert kept[k] == rest[k - 1];
            }
          }
        }
      }
    }
  }

  /**
   * `read_json_metadata_file`: nothing when reading is off or the file is
   * missing, otherwise the 'metadata' of the kept records (see
   * ReadJsonMetadataFileKept) or the KeyError of the first one without it.
   */
  function ReadJsonMetadataFile(readMetadata: bool, files: Files, path: Path): (r: Result<Option<seq<Json>>, Failure>)
    ensures !readMetadata || path !in files ==> r == Ok(None)
    ensures readMetadata && path in files ==> (r.Ok? ==> r.value.Some?) && (r.Err? ==> r.error == MissingMetadataKey)
  {
    if !readMetadata || path !in files then Ok(None)
    else
      match MetadataOf(files[path])
      case Ok(values) => Ok(Some(values))
      case Err(_) => Err(MissingMetadataKey)
  }

  /**
   * A present sidecar read with reading on fails exactly when a kept record
   * lacks 'metadata'; otherwise it holds the 'metadata' of every kept
   * record, in file order.
   */
  lemma ReadJsonMetadataFileKept(readMetadata: bool, files: Files, path: Path)
    requires readMetadata && path in files
    ensures var r := ReadJsonMetadataFile(readMetadata, files, path);
      var kept := FrameRecords(files[path]);
      && (r.Err? <==> !AllHaveMetadata(kept))
      && (r.Ok? ==> |r.value.value| == |kept| &&
                    forall k :: 0 <= k < |kept| ==> r.value.value[k] == kept[k]["metadata"])
  {
    MetadataOfKeptRecords(files[path]);
  }

  /**
   * `frame_metadata['objects']` followed by `if objects:`: the objects to attach,
   * None when they are falsy, a failure when the value has no 'objects' key.
   */
  function ObjectsOf(metadata: Json): (r: Result<Option<Json>, Failure>)
    ensures r.Err? <==> !(metadata.JObject? && "objects" in metadata.fields)
    ensures r.Err? ==> r.error == ObjectsLookupFailed
    ensures r.Ok? && r.value.Some? ==> r.value.value == metadata.fields["objects"] && Truthy(r.value.value)
    ensures r.Ok? && r.value.None? ==> !Truthy(metadata.fields["objects"])
  {
    if metadata.JObject? && "objects" in metadata.fields then
      var objects := metadata.fields["objects"];
      Ok(if Truthy(objects) then Some(objects) else None)
    else Err(ObjectsLookupFailed)
  }
}
