/**
 The gallery: the decoded content of a project (an Etebase collection) is a
 list of tiles, one dict per image item, keyed by "id". This module holds the
 tile builders (Gliff._create_new_tile, Gliff._create_tile_update), the
 lookup Gliff._find_gallery_tile, the inner update_tile of
 Gliff._update_gallery_tile together with the binding of `**tile_data` to its
 parameters, and the scan of Gliff._get_annotation_uid.
 */
module Gallery {
  import opened JsonValue

  type Tile = map<string, Json>

  /** The keys of a tile built by _create_new_tile. */
  const NewTileKeys: set<string> :=
    {"id", "thumbnail", "imageLabels", "fileInfo", "imageUID", "annotationUID", "auditUID", "annotationComplete"}

  /** The keyword parameters of update_tile (besides the positional tile). */
  const UpdateTileParameters: set<string> :=
    {"metadata", "annotationUID", "auditUID", "annotationComplete", "imageLabels"}

  /** The keys update_tile may write. */
  const UpdatedKeys: set<string> := {"fileInfo", "annotationUID", "auditUID", "annotationComplete", "imageLabels"}

  // ---------------------------------------------------------------------------
  // Building tiles and updates

  /** _create_new_tile: a tile whose "id" and "imageUID" are both the image
      item's uid, with the given thumbnail, labels, metadata (as "fileInfo")
      and per-user annotation, audit and completion maps. */
  function CreateNewTile(imageItemUid: string, thumbnail: string, imageLabels: seq<string> := [],
                         metadata: map<string, Json> := map[], annotationUid: map<string, string> := map[],
                         auditUid: map<string, string> := map[],
                         annotationComplete: map<string, bool> := map[]): (tile: Tile)
    ensures tile.Keys == NewTileKeys
    ensures tile["id"] == tile["imageUID"] == Str(imageItemUid) && tile["thumbnail"] == Str(thumbnail)
    ensures tile["imageLabels"] == Strings(imageLabels) && tile["fileInfo"] == Object(metadata)
    ensures tile["annotationUID"] == StrMap(annotationUid) && tile["auditUID"] == StrMap(auditUid)
    ensures tile["annotationComplete"] == BoolMap(annotationComplete)
  {
    map["id" := Str(imageItemUid), "thumbnail" := Str(thumbnail), "imageLabels" := Strings(imageLabels),
        "fileInfo" := Object(metadata), "imageUID" := Str(imageItemUid),
        "annotationUID" := StrMap(annotationUid), "auditUID" := StrMap(auditUid),
        "annotationComplete" := BoolMap(annotationComplete)]
  }

  /** _create_tile_update, as written: the metadata goes under "fileInfo",
      the three per-user maps under their own names, and "imageLabels" only
      when labels are given. No key is named "metadata". */
  function CreateTileUpdate(imageLabels: Option<seq<string>> := None, metadata: map<string, Json> := map[],
                            annotationUid: map<string, string> := map[], auditUid: map<string, string> := map[],
                            annotationComplete: map<string, bool> := map[]): (data: map<string, Json>)
    ensures data.Keys == {"fileInfo", "annotationUID", "auditUID", "annotationComplete"}
                         + (if imageLabels.Some? then {"imageLabels"} else {})
    ensures "metadata" !in data && "tile" !in data
    ensures data["fileInfo"] == Object(metadata)
    ensures data["annotationUID"] == StrMap(annotationUid) && data["auditUID"] == StrMap(auditUid)
    ensures data["annotationComplete"] == BoolMap(annotationComplete)
    ensures imageLabels.Some? ==> data["imageLabels"] == Strings(imageLabels.value)
  {
    var tile := map["fileInfo" := Object(metadata), "annotationUID" := StrMap(annotationUid),
                    "auditUID" := StrMap(auditUid), "annotationComplete" := BoolMap(annotationComplete)];
    if imageLabels.Some? then tile["imageLabels" := Strings(imageLabels.value)] else tile
  }

  /** The update dict _create_tile_update evidently means to build: the
      metadata under the key that update_tile reads, "metadata". */
  function CreateTileUpdateIntended(imageLabels: Option<seq<string>> := None, metadata: map<string, Json> := map[],
                                    annotationUid: map<string, string> := map[],
                                    auditUid: map<string, string> := map[],
                                    annotationComplete: map<string, bool> := map[]): (data: map<string, Json>)
    ensures data.Keys == {"metadata", "annotationUID", "auditUID", "annotationComplete"}
                         + (if imageLabels.Some? then {"imageLabels"} else {})
    ensures "fileInfo" !in data && "tile" !in data
    ensures data["metadata"] == Object(metadata)
    ensures data["annotationUID"] == StrMap(annotationUid) && data["auditUID"] == StrMap(auditUid)
    ensures data["annotationComplete"] == BoolMap(annotationComplete)
    ensures imageLabels.Some? ==> data["imageLabels"] == Strings(imageLabels.value)
  {
    var tile := map["metadata" := Object(metadata), "annotationUID" := StrMap(annotationUid),
                    "auditUID" := StrMap(auditUid), "annotationComplete" := BoolMap(annotationComplete)];
    if imageLabels.Some? then tile["imageLabels" := Strings(imageLabels.value)] else tile
  }

  // ---------------------------------------------------------------------------
  // Binding `update_tile({**tile}, **tile_data)`

  /** The arguments update_tile receives. A parameter not passed is None
      (Null); keys that name no parameter land in `**kwargs`, where update_tile
      never looks. */
  datatype UpdateArgs = UpdateArgs(metadata: Json, annotationUid: Json, auditUid: Json,
                                   annotationComplete: Json, imageLabels: Json, kwargs: map<string, Json>)

  /** The argument bound to the parameter named `name`. */
  function Parameter(args: UpdateArgs, name: string): Json
    requires name in UpdateTileParameters
  {
    if name == "metadata" then args.metadata
    else if name == "annotationUID" then args.annotationUid
    else if name == "auditUID" then args.auditUid
    else if name == "annotationComplete" then args.annotationComplete
    else args.imageLabels
  }

  function Keyword(data: map<string, Json>, name: string): Json {
    if name in data then data[name] else Null
  }

  /** Python's binding of `**tile_data`: each key that names a parameter is
      bound to it, every other key goes to `**kwargs`; a "tile" key would be a
      second value for the positional parameter, a TypeError. */
  function BindUpdateArgs(data: map<string, Json>): (r: Result<UpdateArgs>)
    ensures r.Ok? <==> "tile" !in data
    ensures r.Ok? ==> forall name | name in UpdateTileParameters ::
                        Parameter(r.value, name) == if name in data then data[name] else Null
    ensures r.Ok? ==> r.value.kwargs.Keys == data.Keys - UpdateTileParameters
    ensures r.Ok? ==> forall k | k in r.value.kwargs :: r.value.kwargs[k] == data[k]
  {
    if "tile" in data then Raised
    else
      Ok(UpdateArgs(Keyword(data, "metadata"), Keyword(data, "annotationUID"), Keyword(data, "auditUID"),
                    Keyword(data, "annotationComplete"), Keyword(data, "imageLabels"),
                    data - UpdateTileParameters))
  }

  /** As written, the metadata of an update built by _create_tile_update is
      not bound to update_tile's `metadata` parameter: it sits in `**kwargs`
      under "fileInfo", and `metadata` is None. */
  lemma FileInfoLandsInKwargs(imageLabels: Option<seq<string>>, metadata: map<string, Json>,
                              annotationUid: map<string, string>, auditUid: map<string, string>,
                              annotationComplete: map<string, bool>)
    ensures var r := BindUpdateArgs(CreateTileUpdate(imageLabels, metadata, annotationUid, auditUid,
                                                     annotationComplete));
            && r.Ok? && r.value.metadata == Null && r.value.kwargs == map["fileInfo" := Object(metadata)]
            && r.value.annotationUid == StrMap(annotationUid) && r.value.auditUid == StrMap(auditUid)
            && r.value.annotationComplete == BoolMap(annotationComplete)
            && r.value.imageLabels == if imageLabels.Some? then Strings(imageLabels.value) else Null
  {
    var data := CreateTileUpdate(imageLabels, metadata, annotationUid, auditUid, annotationComplete);
    var r := BindUpdateArgs(data);
    assert Parameter(r.value, "metadata") == Null;
    assert Parameter(r.value, "annotationUID") == data["annotationUID"];
    assert Parameter(r.value, "auditUID") == data["auditUID"];
    assert Parameter(r.value, "annotationComplete") == data["annotationComplete"];
    assert Parameter(r.value, "imageLabels") == Keyword(data, "imageLabels");
    assert r.value.kwargs.Keys == {"fileInfo"};
  }

  /** An update built as intended binds every parameter it carries, the
      metadata included, and leaves `**kwargs` empty. */
  lemma IntendedUpdateBinds(imageLabels: Option<seq<string>>, metadata: map<string, Json>,
                            annotationUid: map<string, string>, auditUid: map<string, string>,
                            annotationComplete: map<string, bool>)
    ensures var r := BindUpdateArgs(CreateTileUpdateIntended(imageLabels, metadata, annotationUid, auditUid,
                                                             annotationComplete));
            && r.Ok? && r.value.metadata == Object(metadata) && r.value.kwargs == map[]
            && r.value.annotationUid == StrMap(annotationUid) && r.value.auditUid == StrMap(auditUid)
            && r.value.annotationComplete == BoolMap(annotationComplete)
            && r.value.imageLabels == if imageLabels.Some? then Strings(imageLabels.value) else Null
  {
    var data := CreateTileUpdateIntended(imageLabels, metadata, annotationUid, auditUid, annotationComplete);
    var r := BindUpdateArgs(data);
    assert Parameter(r.value, "metadata") == data["metadata"];
    assert Parameter(r.value, "annotationUID") == data["annotationUID"];
    assert Parameter(r.value, "auditUID") == data["auditUID"];
    assert Parameter(r.value, "annotationComplete") == data["annotationComplete"];
    assert Parameter(r.value, "imageLabels") == Keyword(data, "imageLabels");
    assert r.value.kwargs.Keys == {};
  }

  // ---------------------------------------------------------------------------
  // update_tile

  /** Whether `tile[key].update(update)` can run. */
  predicate CanMerge(tile: Tile, key: string, update: Json) {
    update == Null || (update.Object? && key in tile && tile[key].Object?)
  }

  /** What `tile[key]` holds after `tile[key].update(update)`: the nested
      dict overridden by the update's entries, its other keys kept (Dafny's
      map `+` keeps the right operand's value on shared keys). Nothing happens
      when the update is None. */
  predicate MergedInto(after: Tile, before: Tile, key: string, update: Json) {
    if update == Null then (key in after <==> key in before) && (key in before ==> after[key] == before[key])
    else key in before && before[key].Object? && update.Object? && key in after
         && after[key] == Object(before[key].fields + update.fields)
  }

  /** A later step that leaves `key` alone keeps what an earlier merge did. */
  lemma MergedIntoKept(after: Tile, mid: Tile, before: Tile, key: string, update: Json)
    requires MergedInto(mid, before, key, update)
    requires (key in after <==> key in mid) && (key in mid ==> after[key] == mid[key])
    ensures MergedInto(after, before, key, update)
  {
  }

  /** `tile[key].update(update)` when `update` is not None. A missing key is
      a KeyError, a value that is not a dict has no `update`; an update that
      is not a dict is taken to raise as well. */
  function MergeField(tile: Tile, key: string, update: Json): (r: Result<Tile>)
    ensures r.Ok? <==> CanMerge(tile, key, update)
    ensures r.Ok? ==> r.value.Keys == tile.Keys && MergedInto(r.value, tile, key, update)
    ensures r.Ok? ==> forall k | k in tile && k != key :: r.value[k] == tile[k]
  {
    if update == Null then Ok(tile)
    else if key in tile && tile[key].Object? && update.Object? then
      Ok(tile[key := Object(tile[key].fields + update.fields)])
    else Raised
  }

  /** The first three merges of update_tile: the metadata into "fileInfo",
      then the annotation and audit uids into their maps. */
  function MergeUids(tile: Tile, args: UpdateArgs): (r: Result<Tile>)
    ensures r.Ok? <==> && CanMerge(tile, "fileInfo", args.metadata)
                       && CanMerge(tile, "annotationUID", args.annotationUid)
                       && CanMerge(tile, "auditUID", args.auditUid)
    ensures r.Ok? ==> r.value.Keys == tile.Keys
    ensures r.Ok? ==> forall k | k in tile && k !in {"fileInfo", "annotationUID", "auditUID"} :: r.value[k] == tile[k]
    ensures r.Ok? ==> && MergedInto(r.value, tile, "fileInfo", args.metadata)
                      && MergedInto(r.value, tile, "annotationUID", args.annotationUid)
                      && MergedInto(r.value, tile, "auditUID", args.auditUid)
  {
    var t1 :- MergeField(tile, "fileInfo", args.metadata);
    var t2 :- MergeField(t1, "annotationUID", args.annotationUid);
    MergeField(t2, "auditUID", args.auditUid)
  }

  /** `tile.setdefault("annotationComplete", {})` followed by its update,
      done only when the update is not None. */
  function MergeCompletion(tile: Tile, update: Json): (r: Result<Tile>)
    ensures r.Ok? <==> update == Null
                       || (update.Object? && ("annotationComplete" in tile ==> tile["annotationComplete"].Object?))
    ensures r.Ok? ==> r.value.Keys == tile.Keys + (if update != Null then {"annotationComplete"} else {})
    ensures r.Ok? ==> forall k | k in tile && k != "annotationComplete" :: r.value[k] == tile[k]
    ensures r.Ok? && update != Null ==>
              var before := if "annotationComplete" in tile then tile["annotationComplete"].fields else map[];
              r.value["annotationComplete"] == Object(before + update.fields)
    ensures r.Ok? && update == Null ==> r.value == tile
  {
    if update == Null then Ok(tile)
    else
      var withDefault := if "annotationComplete" in tile then tile else tile["annotationComplete" := Object(map[])];
      MergeField(withDefault, "annotationComplete", update)
  }

  /** update_tile: the metadata merged into "fileInfo", the annotation and
      audit uids merged into their maps, the completion flags merged into
      "annotationComplete" (created as {} when absent), and "imageLabels"
      replaced; an argument that is None leaves its field alone. */
  function MergeUpdate(tile: Tile, args: UpdateArgs): (r: Result<Tile>)
    ensures r.Ok? <==> && CanMerge(tile, "fileInfo", args.metadata)
                       && CanMerge(tile, "annotationUID", args.annotationUid)
                       && CanMerge(tile, "auditUID", args.auditUid)
                       && (args.annotationComplete == Null
                           || (args.annotationComplete.Object?
                               && ("annotationComplete" in tile ==> tile["annotationComplete"].Object?)))
    ensures r.Ok? ==> r.value.Keys == tile.Keys
                                      + (if args.annotationComplete != Null then {"annotationComplete"} else {})
                                      + (if args.imageLabels != Null then {"imageLabels"} else {})
    ensures r.Ok? ==> forall k | k in tile && k !in UpdatedKeys :: r.value[k] == tile[k]
    ensures r.Ok? && args.annotationComplete != Null ==>
              var before := if "annotationComplete" in tile then tile["annotationComplete"].fields else map[];
              r.value["annotationComplete"] == Object(before + args.annotationComplete.fields)
    ensures r.Ok? && args.annotationComplete == Null && "annotationComplete" in tile ==>
              r.value["annotationComplete"] == tile["annotationComplete"]
    ensures r.Ok? && args.imageLabels != Null ==> r.value["imageLabels"] == args.imageLabels
    ensures r.Ok? && args.imageLabels == Null && "imageLabels" in tile ==> r.value["imageLabels"] == tile["imageLabels"]
  {
    var t3 :- MergeUids(tile, args);
    var t4 :- MergeCompletion(t3, args.annotationComplete);
    var t5 := if args.imageLabels != Null then t4["imageLabels" := args.imageLabels] else t4;
    Ok(t5)
  }

  /** update_tile run step by step on a copy of the tile, as the source does. */
  method UpdateTile(tile: Tile, args: UpdateArgs) returns (r: Result<Tile>)
    ensures r == MergeUpdate(tile, args)
  {
    var t := tile;
    if args.metadata != Null {
      if !("fileInfo" in t && t["fileInfo"].Object? && args.metadata.Object?) {
        return Raised;
      }
      t := t["fileInfo" := Object(t["fileInfo"].fields + args.metadata.fields)];
    }
    if args.annotationUid != Null {
      if !("annotationUID" in t && t["annotationUID"].Object? && args.annotationUid.Object?) {
        return Raised;
      }
      t := t["annotationUID" := Object(t["annotationUID"].fields + args.annotationUid.fields)];
    }
    if args.auditUid != Null {
      if !("auditUID" in t && t["auditUID"].Object? && args.auditUid.Object?) {
        return Raised;
      }
      t := t["auditUID" := Object(t["auditUID"].fields + args.auditUid.fields)];
    }
    if args.annotationComplete != Null {
      if "annotationComplete" !in t {
        t := t["annotationComplete" := Object(map[])];
      }
      if !(t["annotationComplete"].Object? && args.annotationComplete.Object?) {
        return Raised;
      }
      t := t["annotationComplete" := Object(t["annotationComplete"].fields + args.annotationComplete.fields)];
    }
    if args.imageLabels != Null {
      t := t["imageLabels" := args.imageLabels];
    }
    return Ok(t);
  }

  /** update_tile merges the metadata and the two uid maps as the three
      `update` calls do. */
  lemma MergeUpdateMergesUids(tile: Tile, args: UpdateArgs)
    requires MergeUpdate(tile, args).Ok?
    ensures var r := MergeUpdate(tile, args).value;
            && MergedInto(r, tile, "fileInfo", args.metadata)
            && MergedInto(r, tile, "annotationUID", args.annotationUid)
            && MergedInto(r, tile, "auditUID", args.auditUid)
  {
    var r := MergeUpdate(tile, args).value;
    var mid := MergeUids(tile, args).value;
    MergedIntoKept(r, mid, tile, "fileInfo", args.metadata);
    MergedIntoKept(r, mid, tile, "annotationUID", args.annotationUid);
    MergedIntoKept(r, mid, tile, "auditUID", args.auditUid);
  }

  /** Merging the same dict twice is merging it once. */
  lemma MergeTwice(before: map<string, Json>, update: map<string, Json>)
    ensures before + update + update == before + update
  {
  }

  /** A tile update_tile accepted accepts the same arguments again, and
      gains no further keys. */
  lemma MergeUpdateAgain(tile: Tile, args: UpdateArgs)
    requires MergeUpdate(tile, args).Ok?
    ensures var once := MergeUpdate(tile, args).value;
            MergeUpdate(once, args).Ok? && MergeUpdate(once, args).value.Keys == once.Keys
  {
    MergeUpdateMergesUids(tile, args);
  }

  /** One key of MergeUpdateIdempotent. */
  lemma MergeUpdateTwiceAt(tile: Tile, args: UpdateArgs, k: string)
    requires MergeUpdate(tile, args).Ok? && MergeUpdate(MergeUpdate(tile, args).value, args).Ok?
    requires k in MergeUpdate(tile, args).value
    ensures var once := MergeUpdate(tile, args).value;
            k in MergeUpdate(once, args).value && MergeUpdate(once, args).value[k] == once[k]
  {
    var once := MergeUpdate(tile, args).value;
    MergeUpdateMergesUids(tile, args);
    MergeUpdateMergesUids(once, args);
    if k == "fileInfo" && args.metadata != Null {
      MergeTwice(tile[k].fields, args.metadata.fields);
    } else if k == "annotationUID" && args.annotationUid != Null {
      MergeTwice(tile[k].fields, args.annotationUid.fields);
    } else if k == "auditUID" && args.auditUid != Null {
      MergeTwice(tile[k].fields, args.auditUid.fields);
    } else if k == "annotationComplete" && args.annotationComplete != Null {
      var before := if k in tile then tile[k].fields else map[];
      MergeTwice(before, args.annotationComplete.fields);
    }
  }

  /** Updating an empty dict yields the update. */
  lemma MergeIntoEmpty(update: map<string, Json>)
    ensures map[] + update == update
  {
  }

  /** dict.update is idempotent, and so is update_tile: applying the same
      arguments a second time changes nothing. */
  lemma MergeUpdateIdempotent(tile: Tile, args: UpdateArgs)
    requires MergeUpdate(tile, args).Ok?
    ensures MergeUpdate(MergeUpdate(tile, args).value, args) == MergeUpdate(tile, args)
  {
    var once := MergeUpdate(tile, args).value;
    MergeUpdateAgain(tile, args);
    var twice := MergeUpdate(once, args).value;
    forall k | k in once
      ensures twice[k] == once[k]
    {
      MergeUpdateTwiceAt(tile, args, k);
    }
    assert twice == once;
  }

  /** A tile built by _create_new_tile accepts every update built by
      _create_tile_update, as written or as intended: update_tile cannot
      raise on it. */
  lemma NewTileAcceptsEveryUpdate(tile: Tile, data: map<string, Json>)
    requires tile.Keys == NewTileKeys
    requires tile["fileInfo"].Object? && tile["annotationUID"].Object? && tile["auditUID"].Object?
    requires tile["annotationComplete"].Object?
    requires exists labels, metadata, auids, audits, complete ::
               || data == CreateTileUpdate(labels, metadata, auids, audits, complete)
               || data == CreateTileUpdateIntended(labels, metadata, auids, audits, complete)
    ensures BindUpdateArgs(data).Ok? && MergeUpdate(tile, BindUpdateArgs(data).value).Ok?
  {
    var labels, metadata, auids, audits, complete :|
      || data == CreateTileUpdate(labels, metadata, auids, audits, complete)
      || data == CreateTileUpdateIntended(labels, metadata, auids, audits, complete);
    if data == CreateTileUpdate(labels, metadata, auids, audits, complete) {
      FileInfoLandsInKwargs(labels, metadata, auids, audits, complete);
    } else {
      IntendedUpdateBinds(labels, metadata, auids, audits, complete);
    }
  }

  // ---------------------------------------------------------------------------
  // _find_gallery_tile

  /** One step of _find_gallery_tile: `tile["id"] == id`, raising when the
      tile is not a dict with an "id". */
  function IdMatches(tile: Json, id: string): (r: Result<bool>)
    ensures r.Ok? <==> Get(tile, "id").Some?
    ensures r == Ok(true) <==> Get(tile, "id") == Some(Str(id))
  {
    match Get(tile, "id")
    case None => Raised
    case Some(tileId) => Ok(tileId == Str(id))
  }

  /** The result of _find_gallery_tile's loop started at index i. */
  function FirstTileIndexFrom(gallery: seq<Json>, id: string, i: nat): (r: Result<Option<nat>>)
    requires i <= |gallery|
    ensures r.Ok? && r.value.Some? ==> i <= r.value.value < |gallery| && IdMatches(gallery[r.value.value], id) == Ok(true)
    decreases |gallery| - i
  {
    if i == |gallery| then Ok(None)
    else
      match IdMatches(gallery[i], id)
      case Raised => Raised
      case Ok(found) => if found then Ok(Some(i)) else FirstTileIndexFrom(gallery, id, i + 1)
  }

  /** _find_gallery_tile: the index of the first tile with the given id. */
  function FirstTileIndex(gallery: seq<Json>, id: string): (r: Result<Option<nat>>)
    ensures r.Ok? && r.value.Some? ==> r.value.value < |gallery| && gallery[r.value.value].Object?
  {
    FirstTileIndexFrom(gallery, id, 0)
  }

  lemma {:induction false} FirstTileIndexFromSpec(gallery: seq<Json>, id: string, i: nat)
    requires i <= |gallery|
    ensures var r := FirstTileIndexFrom(gallery, id, i);
            && (r.Ok? && r.value.Some? ==>
                  && i <= r.value.value < |gallery| && IdMatches(gallery[r.value.value], id) == Ok(true)
                  && forall k | i <= k < r.value.value :: IdMatches(gallery[k], id) == Ok(false))
            && (r == Ok(None) <==> forall k | i <= k < |gallery| :: IdMatches(gallery[k], id) == Ok(false))
            && (r == Raised <==> exists j | i <= j < |gallery| :: IdMatches(gallery[j], id) == Raised
                                   && forall k | i <= k < j :: IdMatches(gallery[k], id) == Ok(false))
    decreases |gallery| - i
  {
    if i < |gallery| {
      FirstTileIndexFromSpec(gallery, id, i + 1);
      if IdMatches(gallery[i], id) == Raised {
        assert FirstTileIndexFrom(gallery, id, i) == Raised;
      } else if IdMatches(gallery[i], id) == Ok(false) {
        var r := FirstTileIndexFrom(gallery, id, i + 1);
        if r == Raised {
          var j :| i + 1 <= j < |gallery| && IdMatches(gallery[j], id) == Raised
                   && forall k | i + 1 <= k < j :: IdMatches(gallery[k], id) == Ok(false);
          assert forall k | i <= k < j :: IdMatches(gallery[k], id) == Ok(false);
        } else {
          forall j | i <= j < |gallery| && IdMatches(gallery[j], id) == Raised
            ensures exists k | i <= k < j :: IdMatches(gallery[k], id) != Ok(false)
          {
            if j == i {
              assert false;
            }
            if forall k | i + 1 <= k < j :: IdMatches(gallery[k], id) == Ok(false) {
              assert false;
            }
          }
        }
      }
    }
  }

  /** _find_gallery_tile returns the smallest index whose tile's "id" equals
      the argument, None exactly when every tile has an "id" and none equals
      it, and raises when a tile before the first match has no "id". */
  lemma FirstTileIndexSpec(gallery: seq<Json>, id: string)
    ensures var r := FirstTileIndex(gallery, id);
            && (r.Ok? && r.value.Some? ==>
                  && r.value.value < |gallery| && IdMatches(gallery[r.value.value], id) == Ok(true)
                  && gallery[r.value.value].Object?
                  && forall k | 0 <= k < r.value.value :: IdMatches(gallery[k], id) == Ok(false))
            && (r == Ok(None) <==> forall k | 0 <= k < |gallery| :: IdMatches(gallery[k], id) == Ok(false))
            && (r == Raised <==> exists j | 0 <= j < |gallery| :: IdMatches(gallery[j], id) == Raised
                                   && forall k | 0 <= k < j :: IdMatches(gallery[k], id) == Ok(false))
  {
    FirstTileIndexFromSpec(gallery, id, 0);
  }

  /** _find_gallery_tile's loop, with its early return. */
  method FindGalleryTile(gallery: seq<Json>, id: string) returns (r: Result<Option<nat>>)
    ensures r == FirstTileIndex(gallery, id)
  {
    for i := 0 to |gallery|
      invariant FirstTileIndexFrom(gallery, id, i) == FirstTileIndex(gallery, id)
    {
      match Get(gallery[i], "id") {
        case None =>
          return Raised;
        case Some(tileId) =>
          if tileId == Str(id) {
            return Ok(Some(i));
          }
      }
    }
    return Ok(None);
  }

  // ---------------------------------------------------------------------------
  // _create_gallery_tile and _update_gallery_tile on the decoded gallery

  /** The gallery _create_gallery_tile writes: the decoded content with the
      tile appended; `append` exists only on a list, so other content raises
      and nothing is written. */
  function AppendedGallery(content: Json, tile: Json): (r: Option<Json>)
    ensures r.Some? <==> content.Array?
    ensures r.Some? ==> r.value.Array? && r.value.items == content.items + [tile]
  {
    if content.Array? then Some(Array(content.items + [tile])) else None
  }

  /** `gallery[i] = update_tile({**gallery[i]}, **tile_data)` with i the found
      index: only the tile at that index changes, to the merged tile. A tile
      that is not found gives `gallery[None]`, which raises. */
  function UpdatedGallery(gallery: seq<Json>, id: string, data: map<string, Json>): (r: Result<seq<Json>>)
    ensures r.Ok? ==> FirstTileIndex(gallery, id).Ok? && FirstTileIndex(gallery, id).value.Some?
    ensures r.Ok? ==> var i := FirstTileIndex(gallery, id).value.value;
                      && i < |gallery| && gallery[i].Object? && BindUpdateArgs(data).Ok?
                      && MergeUpdate(gallery[i].fields, BindUpdateArgs(data).value).Ok?
                      && |r.value| == |gallery|
                      && r.value[i] == Object(MergeUpdate(gallery[i].fields, BindUpdateArgs(data).value).value)
                      && forall j | 0 <= j < |gallery| && j != i :: r.value[j] == gallery[j]
    ensures FirstTileIndex(gallery, id).Ok? && FirstTileIndex(gallery, id).value.Some? && BindUpdateArgs(data).Ok?
            && MergeUpdate(gallery[FirstTileIndex(gallery, id).value.value].fields, BindUpdateArgs(data).value).Ok?
            ==> r.Ok?
  {
    FirstTileIndexSpec(gallery, id);
    var found :- FirstTileIndex(gallery, id);
    if found.None? then Raised
    else
      var i := found.value;
      var args :- BindUpdateArgs(data);
      var tile :- MergeUpdate(gallery[i].fields, args);
      Ok(gallery[i := Object(tile)])
  }

  /** The content _update_gallery_tile writes, None when it writes nothing
      (something raised and was caught). Only a list can yield an index. */
  function GalleryAfterUpdate(content: Json, id: string, data: map<string, Json>): (r: Option<Json>)
    ensures r.Some? <==> content.Array? && UpdatedGallery(content.items, id, data).Ok?
    ensures r.Some? ==> r.value == Array(UpdatedGallery(content.items, id, data).value)
  {
    if content.Array? then
      match UpdatedGallery(content.items, id, data)
      case Ok(g) => Some(Array(g))
      case Raised => None
    else None
  }

  /** The project content once _update_gallery_tile has run: the updated
      gallery, or the content as it was when something raised and was caught. */
  function ContentAfterTileUpdate(content: Json, id: string, data: map<string, Json>): (r: Json)
    ensures GalleryAfterUpdate(content, id, data).None? ==> r == content
    ensures GalleryAfterUpdate(content, id, data).Some? ==> r == GalleryAfterUpdate(content, id, data).value
  {
    match GalleryAfterUpdate(content, id, data)
    case Some(g) => g
    case None => content
  }

  /** As written, an update built by _create_tile_update never changes a
      tile's "fileInfo", whatever metadata it carries; every other tile is
      left as it was and the gallery keeps its length. */
  lemma UpdateNeverChangesFileInfo(gallery: seq<Json>, id: string, imageLabels: Option<seq<string>>,
                                   metadata: map<string, Json>, annotationUid: map<string, string>,
                                   auditUid: map<string, string>, annotationComplete: map<string, bool>)
    ensures var r := UpdatedGallery(gallery, id, CreateTileUpdate(imageLabels, metadata, annotationUid,
                                                                  auditUid, annotationComplete));
            r.Ok? ==> |r.value| == |gallery|
                      && forall j | 0 <= j < |gallery| :: Get(r.value[j], "fileInfo") == Get(gallery[j], "fileInfo")
  {
    var data := CreateTileUpdate(imageLabels, metadata, annotationUid, auditUid, annotationComplete);
    var r := UpdatedGallery(gallery, id, data);
    if r.Ok? {
      FileInfoLandsInKwargs(imageLabels, metadata, annotationUid, auditUid, annotationComplete);
      var i := FirstTileIndex(gallery, id).value.value;
      MergeUpdateMergesUids(gallery[i].fields, BindUpdateArgs(data).value);
      forall j | 0 <= j < |gallery|
        ensures Get(r.value[j], "fileInfo") == Get(gallery[j], "fileInfo")
      {
        if j != i {
          assert r.value[j] == gallery[j];
        }
      }
    }
  }

  /** Image labels are replaced by an update exactly when it was built with
      labels; otherwise the tile keeps its own. */
  lemma UpdateReplacesLabelsOnlyWhenGiven(gallery: seq<Json>, id: string, imageLabels: Option<seq<string>>,
                                          metadata: map<string, Json>, annotationUid: map<string, string>,
                                          auditUid: map<string, string>, annotationComplete: map<string, bool>)
    requires UpdatedGallery(gallery, id, CreateTileUpdate(imageLabels, metadata, annotationUid,
                                                          auditUid, annotationComplete)).Ok?
    ensures var i := FirstTileIndex(gallery, id).value.value;
            var r := UpdatedGallery(gallery, id, CreateTileUpdate(imageLabels, metadata, annotationUid,
                                                                  auditUid, annotationComplete)).value;
            && (imageLabels.Some? ==> Get(r[i], "imageLabels") == Some(Strings(imageLabels.value)))
            && (imageLabels.None? ==> Get(r[i], "imageLabels") == Get(gallery[i], "imageLabels"))
  {
    FileInfoLandsInKwargs(imageLabels, metadata, annotationUid, auditUid, annotationComplete);
  }

  /** With the update built as intended, the metadata is merged into the
      found tile's "fileInfo", whatever else the update carries. */
  lemma IntendedUpdateMergesMetadata(gallery: seq<Json>, id: string, imageLabels: Option<seq<string>>,
                                     metadata: map<string, Json>, annotationUid: map<string, string>,
                                     auditUid: map<string, string>, annotationComplete: map<string, bool>)
    requires UpdatedGallery(gallery, id, CreateTileUpdateIntended(imageLabels, metadata, annotationUid,
                                                                  auditUid, annotationComplete)).Ok?
    ensures var i := FirstTileIndex(gallery, id).value.value;
            var r := UpdatedGallery(gallery, id, CreateTileUpdateIntended(imageLabels, metadata, annotationUid,
                                                                          auditUid, annotationComplete)).value;
            && gallery[i].Object? && "fileInfo" in gallery[i].fields && gallery[i].fields["fileInfo"].Object?
            && Get(r[i], "fileInfo") == Some(Object(gallery[i].fields["fileInfo"].fields + metadata))
  {
    var data := CreateTileUpdateIntended(imageLabels, metadata, annotationUid, auditUid, annotationComplete);
    IntendedUpdateBinds(imageLabels, metadata, annotationUid, auditUid, annotationComplete);
    var i := FirstTileIndex(gallery, id).value.value;
    MergeUpdateMergesUids(gallery[i].fields, BindUpdateArgs(data).value);
  }

  /** The tile of the counterexample below: a fresh tile for image "img"
      whose "fileInfo" is empty. */
  function SampleGallery(): (g: seq<Json>)
    ensures |g| == 1 && g[0] == Object(CreateNewTile("img", "thumb"))
  {
    [Object(CreateNewTile("img", "thumb"))]
  }

  /** Counterexample for the as-written update: the fresh tile, updated with
      non-empty metadata, keeps an empty "fileInfo". */
  lemma MetadataUpdateIsSwallowed()
    ensures var r := UpdatedGallery(SampleGallery(), "img", CreateTileUpdate(metadata := map["width" := Num(3.0)]));
            r.Ok? && Get(r.value[0], "fileInfo") == Some(Object(map[]))
  {
    var tile := CreateNewTile("img", "thumb");
    var gallery := SampleGallery();
    var meta := map["width" := Num(3.0)];
    assert IdMatches(gallery[0], "img") == Ok(true);
    assert FirstTileIndex(gallery, "img") == Ok(Some(0));
    NewTileAcceptsEveryUpdate(tile, CreateTileUpdate(metadata := meta));
    UpdateNeverChangesFileInfo(gallery, "img", None, meta, map[], map[], map[]);
  }

  /** The same update built as intended records the metadata. */
  lemma MetadataUpdateIsRecordedAsIntended()
    ensures var r := UpdatedGallery(SampleGallery(), "img",
                                    CreateTileUpdateIntended(metadata := map["width" := Num(3.0)]));
            r.Ok? && Get(r.value[0], "fileInfo") == Some(Object(map["width" := Num(3.0)]))
  {
    var tile := CreateNewTile("img", "thumb");
    var gallery := SampleGallery();
    var meta := map["width" := Num(3.0)];
    assert IdMatches(gallery[0], "img") == Ok(true);
    assert FirstTileIndex(gallery, "img") == Ok(Some(0));
    var args := BindUpdateArgs(CreateTileUpdateIntended(metadata := meta)).value;
    assert Parameter(args, "metadata") == Object(meta);
    assert Parameter(args, "annotationUID") == StrMap(map[]);
    assert Parameter(args, "auditUID") == StrMap(map[]);
    assert Parameter(args, "annotationComplete") == BoolMap(map[]);
    assert MergeUpdate(tile, args).Ok?;
    assert UpdatedGallery(gallery, "img", CreateTileUpdateIntended(metadata := meta)).Ok?;
    IntendedUpdateMergesMetadata(gallery, "img", None, meta, map[], map[], map[]);
    MergeIntoEmpty(meta);
  }

  /** A tile appended to a gallery in which every tile has an "id" and none
      is the new tile's is then found, at the end. */
  lemma AppendedTileIsFound(gallery: seq<Json>, id: string, tile: Json)
    requires forall k | 0 <= k < |gallery| :: IdMatches(gallery[k], id) == Ok(false)
    requires IdMatches(tile, id) == Ok(true)
    ensures FirstTileIndex(gallery + [tile], id) == Ok(Some(|gallery|))
  {
    var g := gallery + [tile];
    FirstTileIndexSpec(g, id);
    assert forall k | 0 <= k < |gallery| :: IdMatches(g[k], id) == Ok(false);
    assert IdMatches(g[|gallery|], id) == Ok(true);
    assert forall j | 0 <= j < |g| :: IdMatches(g[j], id) != Raised;
    assert FirstTileIndex(g, id) != Ok(None);
    assert FirstTileIndex(g, id) != Raised;
    var n := FirstTileIndex(g, id).value.value;
    assert IdMatches(g[n], id) == Ok(true);
    assert n == |gallery|;
  }

  /** The update _create_annotation_item sends for a new annotation item:
      bound to update_tile, it carries the user's new item uid and an
      incomplete flag, while its metadata lands in `**kwargs`. */
  function AnnotationTileUpdate(metadata: map<string, Json>, username: string, itemUid: string)
    : (data: map<string, Json>)
    ensures var args := BindUpdateArgs(data);
            && args.Ok? && args.value.metadata == Null && args.value.kwargs == map["fileInfo" := Object(metadata)]
            && args.value.annotationUid == Object(map[username := Str(itemUid)])
            && args.value.auditUid == Object(map[])
            && args.value.annotationComplete == Object(map[username := Bool(false)])
            && args.value.imageLabels == Null
  {
    FileInfoLandsInKwargs(None, metadata, map[username := itemUid], map[], map[username := false]);
    CreateTileUpdate(metadata := metadata, annotationUid := map[username := itemUid],
                     annotationComplete := map[username := false])
  }

  // ---------------------------------------------------------------------------
  // _get_annotation_uid

  /** `for tile in gallery`: a list yields its tiles; an empty dict or str
      yields nothing; a non-empty dict or str yields str values, on which
      `tile["id"]` raises at once; anything else is not iterable. */
  function Tiles(content: Json): (r: Result<seq<Json>>)
    ensures r.Ok? <==> content.Array? || content == Object(map[]) || content == Str("")
    ensures r.Ok? && content.Array? ==> r.value == content.items
    ensures r.Ok? && !content.Array? ==> r.value == []
  {
    match content
    case Array(xs) => Ok(xs)
    case Object(m) => if |m| == 0 then Ok([]) else Raised
    case Str(s) => if s == "" then Ok([]) else Raised
    case _ => Raised
  }

  /** One step of _get_annotation_uid's loop: Some(uid) stops the scan, None
      moves on. A tile with the right id whose "annotationUID" lacks the user
      moves on too. `username in uids` on a list or str is membership or
      substring, and when it holds `uids[username]` raises. */
  function AnnotationUidStep(tile: Json, imageItemUid: string, username: string): (r: Result<Option<Json>>)
    ensures (r.Ok? && r.value.Some?) <==> (&& Get(tile, "id") == Some(Str(imageItemUid))
                                          && Get(tile, "annotationUID").Some?
                                          && Get(Get(tile, "annotationUID").value, username).Some?)
    ensures r.Ok? && r.value.Some? ==> Some(r.value.value) == Get(Get(tile, "annotationUID").value, username)
    ensures Get(tile, "id").None? ==> r == Raised
    ensures Get(tile, "id").Some? && Get(tile, "id") != Some(Str(imageItemUid)) ==> r == Ok(None)
    ensures Get(tile, "id") == Some(Str(imageItemUid)) ==>
              match Get(tile, "annotationUID")
              case None => r == Raised
              case Some(uids) =>
                && (uids.Object? && username !in uids.fields ==> r == Ok(None))
                && (uids.Array? ==> r == if Str(username) in uids.items then Raised else Ok(None))
                && (uids.Str? ==> r == if IsSubstring(username, uids.s) then Raised else Ok(None))
                && (!uids.Object? && !uids.Array? && !uids.Str? ==> r == Raised)
  {
    match Get(tile, "id")
    case None => Raised
    case Some(tileId) =>
      if tileId != Str(imageItemUid) then Ok(None)
      else
        match Get(tile, "annotationUID")
        case None => Raised
        case Some(uids) =>
          match uids
          case Object(m) => if username in m then Ok(Some(m[username])) else Ok(None)
          case Array(xs) => if Str(username) in xs then Raised else Ok(None)
          case Str(s) => if IsSubstring(username, s) then Raised else Ok(None)
          case _ => Raised
  }

  /** The result of _get_annotation_uid's loop started at index i; Null is
      the None it returns when no tile holds the user. */
  function AnnotationUidFrom(tiles: seq<Json>, imageItemUid: string, username: string, i: nat): (r: Result<Json>)
    requires i <= |tiles|
    ensures r.Ok? && r.value != Null ==>
              exists k | i <= k < |tiles| :: AnnotationUidStep(tiles[k], imageItemUid, username) == Ok(Some(r.value))
    ensures r.Raised? ==> exists k | i <= k < |tiles| :: AnnotationUidStep(tiles[k], imageItemUid, username).Raised?
    decreases |tiles| - i
  {
    if i == |tiles| then Ok(Null)
    else
      match AnnotationUidStep(tiles[i], imageItemUid, username)
      case Raised => Raised
      case Ok(found) => if found.Some? then Ok(found.value) else AnnotationUidFrom(tiles, imageItemUid, username, i + 1)
  }

  /** _get_annotation_uid on decoded project content. */
  function AnnotationUidIn(content: Json, imageItemUid: string, username: string): (r: Result<Json>)
    ensures Tiles(content).Raised? ==> r == Raised
    ensures r.Ok? && r.value != Null ==>
              && content.Array?
              && exists k | 0 <= k < |content.items| ::
                   AnnotationUidStep(content.items[k], imageItemUid, username) == Ok(Some(r.value))
  {
    var tiles :- Tiles(content);
    AnnotationUidFrom(tiles, imageItemUid, username, 0)
  }

  lemma {:induction false} AnnotationUidFromSpec(tiles: seq<Json>, imageItemUid: string, username: string,
                                                 i: nat, j: nat)
    requires i <= j <= |tiles|
    requires forall k | i <= k < j :: AnnotationUidStep(tiles[k], imageItemUid, username) == Ok(None)
    ensures j == |tiles| ==> AnnotationUidFrom(tiles, imageItemUid, username, i) == Ok(Null)
    ensures j < |tiles| && AnnotationUidStep(tiles[j], imageItemUid, username) == Raised ==>
              AnnotationUidFrom(tiles, imageItemUid, username, i) == Raised
    ensures j < |tiles| && AnnotationUidStep(tiles[j], imageItemUid, username).Ok?
            && AnnotationUidStep(tiles[j], imageItemUid, username).value.Some? ==>
              AnnotationUidFrom(tiles, imageItemUid, username, i)
              == Ok(AnnotationUidStep(tiles[j], imageItemUid, username).value.value)
    decreases j - i
  {
    if i < j {
      AnnotationUidFromSpec(tiles, imageItemUid, username, i + 1, j);
    }
  }

  /** _get_annotation_uid returns `tile["annotationUID"][username]` of the
      first tile that has the image's id and the user, skipping matching tiles
      without the user; None when no tile has both; and raises when a tile
      before that one cannot be inspected. */
  lemma AnnotationUidSpec(tiles: seq<Json>, imageItemUid: string, username: string, j: nat)
    requires j <= |tiles|
    requires forall k | 0 <= k < j :: AnnotationUidStep(tiles[k], imageItemUid, username) == Ok(None)
    ensures j == |tiles| ==> AnnotationUidIn(Array(tiles), imageItemUid, username) == Ok(Null)
    ensures j < |tiles| && AnnotationUidStep(tiles[j], imageItemUid, username) == Raised ==>
              AnnotationUidIn(Array(tiles), imageItemUid, username) == Raised
    ensures j < |tiles| && Get(tiles[j], "id") == Some(Str(imageItemUid))
            && Get(tiles[j], "annotationUID").Some? && Get(Get(tiles[j], "annotationUID").value, username).Some? ==>
              AnnotationUidIn(Array(tiles), imageItemUid, username)
              == Ok(Get(Get(tiles[j], "annotationUID").value, username).value)
  {
    AnnotationUidFromSpec(tiles, imageItemUid, username, 0, j);
  }

  /** _get_annotation_uid's loop, with its `break`. */
  method ScanAnnotationUid(tiles: seq<Json>, imageItemUid: string, username: string) returns (r: Result<Json>)
    ensures r == AnnotationUidFrom(tiles, imageItemUid, username, 0)
  {
    var itemUid := Null;
    var i := 0;
    while i < |tiles|
      invariant 0 <= i <= |tiles| && itemUid == Null
      invariant AnnotationUidFrom(tiles, imageItemUid, username, i) == AnnotationUidFrom(tiles, imageItemUid, username, 0)
    {
      var tile := tiles[i];
      match Get(tile, "id") {
        case None =>
          return Raised;
        case Some(tileId) =>
          if tileId == Str(imageItemUid) {
            match Get(tile, "annotationUID") {
              case None =>
                return Raised;
              case Some(uids) =>
                match uids {
                  case Object(m) =>
                    if username in m {
                      itemUid := m[username];
                      break;
                    }
                  case Array(xs) =>
                    if Str(username) in xs {
                      return Raised;
                    }
                  case Str(s) =>
                    if IsSubstring(username, s) {
                      return Raised;
                    }
                  case _ =>
                    return Raised;
                }
            }
          }
      }
      i := i + 1;
    }
    return Ok(itemUid);
  }

  /** update_tile keeps a tile's "id", and a user named in the annotation
      uids it merges maps to the uid given for them. */
  lemma MergeUpdateRecordsUid(tile: Tile, args: UpdateArgs, username: string)
    requires MergeUpdate(tile, args).Ok?
    requires args.annotationUid.Object? && username in args.annotationUid.fields
    ensures var after := Object(MergeUpdate(tile, args).value);
            && Get(after, "id") == Get(Object(tile), "id")
            && Get(after, "annotationUID").Some?
            && Get(Get(after, "annotationUID").value, username) == Some(args.annotationUid.fields[username])
  {
    MergeUpdateMergesUids(tile, args);
    assert "id" !in UpdatedKeys;
  }

  /** Registering an annotation item in the gallery makes _get_annotation_uid
      find it: once _update_gallery_tile has merged `{username: uid}` into the
      tile of the image, the scan returns uid for that image and user, so the
      next upload_annotation for them updates that item. */
  lemma RegisteredAnnotationIsFound(content: Json, id: string, metadata: map<string, Json>,
                                    username: string, itemUid: string)
    requires GalleryAfterUpdate(content, id, AnnotationTileUpdate(metadata, username, itemUid)).Some?
    ensures AnnotationUidIn(ContentAfterTileUpdate(content, id, AnnotationTileUpdate(metadata, username, itemUid)),
                            id, username) == Ok(Str(itemUid))
  {
    var gallery := content.items;
    var after := UpdatedGallery(gallery, id, AnnotationTileUpdate(metadata, username, itemUid)).value;
    FirstTileIndexSpec(gallery, id);
    var i := FirstTileIndex(gallery, id).value.value;
    MergeUpdateRecordsUid(gallery[i].fields, BindUpdateArgs(AnnotationTileUpdate(metadata, username, itemUid)).value,
                          username);
    forall k | 0 <= k < i
      ensures AnnotationUidStep(after[k], id, username) == Ok(None)
    {
      assert after[k] == gallery[k];
    }
    AnnotationUidSpec(after, id, username, i);
  }
}
