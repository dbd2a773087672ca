/**
 The two stateful classes of gliff.py. Project caches one Etebase collection
 (the project) and its item manager; Gliff holds the logged-in account and a
 Project, and drives the gallery and annotation bookkeeping through them.

 Etebase itself is not modelled: the server side is represented by the
 decoded content of every collection the account can see and by the items of
 each collection, both held in the Project object, and every fetch or
 transaction is a read or a write of those maps. Contents are held decoded
 (json.loads/json.dumps are left out), a uid the server would generate and
 the current time are parameters.
 */
module Client {
  import opened JsonValue
  import opened Annotations
  import opened Gallery

  /** An Etebase collection as the client sees it: its uid and its decoded
      content (for a project, the gallery). */
  datatype Collection = Collection(uid: string, content: Json)

  /** An Etebase item: its meta dict and its decoded content. */
  datatype Item = Item(meta: map<string, Json>, content: Json)

  /** A logged-in Etebase account; only the name is kept. */
  datatype Account = Account(username: string)

  /** The item stored under itemUid in the collection collectionUid. */
  function StoredItem(items: map<string, map<string, Item>>, collectionUid: string, itemUid: string): (r: Option<Item>)
    ensures r.Some? <==> collectionUid in items && itemUid in items[collectionUid]
    ensures r.Some? ==> r.value == items[collectionUid][itemUid]
  {
    if collectionUid in items && itemUid in items[collectionUid] then Some(items[collectionUid][itemUid]) else None
  }

  /** The items once `item` has been stored under itemUid in collectionUid. */
  function WithItem(items: map<string, map<string, Item>>, collectionUid: string, itemUid: string, item: Item)
    : (r: map<string, map<string, Item>>)
    ensures StoredItem(r, collectionUid, itemUid) == Some(item)
    ensures forall c, i | (c, i) != (collectionUid, itemUid) :: StoredItem(r, c, i) == StoredItem(items, c, i)
  {
    var existing := if collectionUid in items then items[collectionUid] else map[];
    items[collectionUid := existing[itemUid := item]]
  }

  /** The meta dict _create_annotation_item gives a new annotation item. */
  function AnnotationItemMeta(now: int): (meta: map<string, Json>)
    ensures meta.Keys == {"type", "createdTime", "modifiedTime", "isComplete"}
    ensures meta["type"] == Str("gliff.annotation") && meta["isComplete"] == Bool(false)
    ensures meta["createdTime"] == meta["modifiedTime"] == Num(now as real)
  {
    map["type" := Str("gliff.annotation"), "createdTime" := Num(now as real), "modifiedTime" := Num(now as real),
        "isComplete" := Bool(false)]
  }

  /** `{**item.meta, "modifiedTime": now}`. */
  function Touched(item: Item, now: int): (r: Item)
    ensures r.content == item.content
    ensures r.meta.Keys == item.meta.Keys + {"modifiedTime"} && r.meta["modifiedTime"] == Num(now as real)
    ensures forall k | k in item.meta && k != "modifiedTime" :: r.meta[k] == item.meta[k]
  {
    item.(meta := item.meta["modifiedTime" := Num(now as real)])
  }

  class Project {
    /** The cached collection (`self.project`), None until the first fetch. */
    var project: Option<Collection>
    /** The item manager (`self.item_manager`), named by the collection it serves. */
    var itemManager: Option<string>
    /** The server side: the decoded content of each collection. */
    var collections: map<string, Json>
    /** The server side: the items of each collection, by uid. */
    var items: map<string, map<string, Item>>
    /** How many times the collection has been fetched from the server. */
    ghost var fetches: nat

    /** A project and its item manager are cached together, and the cache
        agrees with the server (this client is the only writer). */
    ghost predicate Valid()
      reads this
    {
      && (project.Some? <==> itemManager.Some?)
      && (project.Some? ==> && itemManager == Some(project.value.uid)
                            && project.value.uid in collections
                            && collections[project.value.uid] == project.value.content)
    }

    /** Project.__init__: nothing cached yet. */
    constructor(collections: map<string, Json>, items: map<string, map<string, Item>>)
      ensures Valid()
      ensures project.None? && this.collections == collections && this.items == items && fetches == 0
    {
      project := None;
      itemManager := None;
      this.collections := collections;
      this.items := items;
      fetches := 0;
    }

    /** The collection projectUid is the one cached, with its item manager. */
    predicate Caches(projectUid: string)
      reads this
    {
      && projectUid in collections
      && project == Some(Collection(projectUid, collections[projectUid]))
      && itemManager == Some(projectUid)
    }

    /** The fetches `_fetch_project_data(projectUid)` makes from this state:
        none when that collection is already cached, one otherwise. */
    function FetchCost(projectUid: string): nat
      reads this
    {
      if project.Some? && project.value.uid == projectUid then 0 else 1
    }

    /** _fetch_project_data: the collection is fetched (with a new item
        manager) only when none is cached or the cached one has another uid;
        a uid the server does not know makes the fetch raise (ok is false) and
        leaves the cache as it was. */
    method FetchProjectData(projectUid: string) returns (ok: bool)
      requires Valid()
      modifies this
      ensures Valid()
      ensures collections == old(collections) && items == old(items)
      ensures ok <==> projectUid in collections
      ensures ok ==> Caches(projectUid)
      ensures fetches == old(fetches + FetchCost(projectUid))
      ensures ok ==> project == Some(Collection(projectUid, collections[projectUid])) && itemManager == Some(projectUid)
      ensures old(project).Some? && old(project).value.uid == projectUid ==> unchanged(this)
      ensures !(old(project).Some? && old(project).value.uid == projectUid) ==>
                fetches == old(fetches) + 1 && (!ok ==> project == old(project) && itemManager == old(itemManager))
    {
      if project.None? || project.value.uid != projectUid {
        fetches := fetches + 1;
        if projectUid !in collections {
          return false;
        }
        project := Some(Collection(projectUid, collections[projectUid]));
        itemManager := Some(projectUid);
      }
      return true;
    }

    /** The `content` property: the cached collection's content, None when
        nothing is cached. */
    function Content(): (c: Option<Json>)
      reads this
      ensures c.Some? <==> project.Some?
      ensures Valid() && c.Some? ==> c.value == collections[project.value.uid]
    {
      if project.Some? then Some(project.value.content) else None
    }

    /** The `content` setter: with a project cached, its content is replaced
        and written to the server; otherwise nothing happens. */
    method SetContent(newContent: Json)
      requires Valid()
      modifies this
      ensures Valid()
      ensures old(project).None? ==> unchanged(this)
      ensures old(project).Some? ==> && project == Some(Collection(old(project).value.uid, newContent))
                                     && collections == old(collections)[old(project).value.uid := newContent]
      ensures itemManager == old(itemManager) && items == old(items) && fetches == old(fetches)
      ensures Content() == if old(project).Some? then Some(newContent) else None
    {
      if project.Some? {
        project := Some(project.value.(content := newContent));
        collections := collections[project.value.uid := newContent];
      }
    }

    /** `item_manager.fetch(item_uid)`: raises without an item manager or when
        the item does not exist. */
    method FetchItem(itemUid: string) returns (r: Result<Item>)
      requires Valid()
      ensures itemManager.None? ==> r == Raised
      ensures itemManager.Some? ==> r == match StoredItem(items, itemManager.value, itemUid)
                                          case Some(item) => Ok(item)
                                          case None => Raised
    {
      if itemManager.None? {
        return Raised;
      }
      var found := StoredItem(items, itemManager.value, itemUid);
      if found.None? {
        return Raised;
      }
      return Ok(found.value);
    }

    /** `item_manager.create(...)` or a changed item, then
        `item_manager.transaction([item])`: the item is stored under its uid
        in the cached collection. */
    method WriteItem(itemUid: string, item: Item)
      requires Valid() && itemManager.Some?
      modifies this
      ensures Valid()
      ensures project == old(project) && itemManager == old(itemManager) && collections == old(collections)
      ensures items == WithItem(old(items), old(itemManager).value, itemUid, item)
      ensures fetches == old(fetches)
    {
      items := WithItem(items, itemManager.value, itemUid, item);
    }
  }

  class Gliff {
    var account: Option<Account>
    var project: Project?

    /** A Project exists only while an account is logged in. */
    ghost predicate Valid()
      reads this, project
    {
      project != null ==> account.Some? && project.Valid()
    }

    /** Gliff.__init__ without an access key: not logged in. */
    constructor()
      ensures Valid() && account.None? && project == null
    {
      account := None;
      project := null;
    }

    /** login, once the access key has been decoded and Account.login has
        succeeded: the account and a fresh Project over what it can see. */
    method Login(username: string, collections: map<string, Json>, items: map<string, map<string, Item>>)
      modifies this
      ensures Valid()
      ensures account == Some(Account(username)) && project != null && fresh(project)
      ensures project.project.None? && project.collections == collections && project.items == items
    {
      account := Some(Account(username));
      project := new Project(collections, items);
    }

    /** logout: a logged-in client drops its account and its project; a
        client that is not logged in is left alone. */
    method Logout()
      requires Valid()
      modifies this
      ensures Valid()
      ensures account.None? && project == null
      ensures old(account).None? ==> unchanged(this)
    {
      if account.Some? {
        account := None;
        project := null;
      }
    }

    /** The decoded gallery as `_get_gallery` would read it: None when there is
        no Project or no cached collection. */
    function GalleryContent(): (c: Option<Json>)
      reads this, project
      ensures c.Some? <==> project != null && project.project.Some?
      ensures c.Some? ==> c.value == project.project.value.content
      ensures c.Some? && project.Valid() ==> c.value == project.collections[project.project.value.uid]
    {
      if project == null then None else project.Content()
    }

    /** _create_gallery_tile: the tile is appended to the gallery and the
        gallery written back; anything that raises (no project, content that
        is not a list) is caught and nothing is written. */
    method CreateGalleryTile(tile: Json) returns (written: bool)
      requires Valid()
      modifies project
      ensures Valid()
      ensures written <==> old(GalleryContent()).Some? && old(GalleryContent()).value.Array?
      ensures written ==> GalleryContent() == AppendedGallery(old(GalleryContent()).value, tile)
      ensures written ==> project.collections == old(project.collections)[project.project.value.uid :=
                                                                             GalleryContent().value]
      ensures !written ==> project == null || unchanged(project)
      ensures project != null ==> && project.items == old(project.items) && project.fetches == old(project.fetches)
                                  && project.itemManager == old(project.itemManager)
    {
      if project == null {
        return false;
      }
      var content := project.Content();
      if content.None? || !content.value.Array? {
        return false;
      }
      var gallery := content.value.items;
      gallery := gallery + [tile];
      project.SetContent(Array(gallery));
      return true;
    }

    /** _update_gallery_tile: the tile whose "id" is itemUid is replaced by
        `update_tile({**tile}, **data)` and the gallery written back; when
        something raises (no project, no such tile, a tile without "id" before
        it, an update update_tile cannot apply) it is caught and nothing is
        written. */
    method UpdateGalleryTile(itemUid: string, data: map<string, Json>) returns (written: bool)
      requires Valid()
      modifies project
      ensures Valid()
      ensures written <==> old(GalleryContent()).Some?
                           && GalleryAfterUpdate(old(GalleryContent()).value, itemUid, data).Some?
      ensures written ==> GalleryContent() == GalleryAfterUpdate(old(GalleryContent()).value, itemUid, data)
      ensures written ==> project.collections == old(project.collections)[project.project.value.uid :=
                                                                             GalleryContent().value]
      ensures !written ==> project == null || unchanged(project)
      ensures project != null ==> && project.items == old(project.items) && project.fetches == old(project.fetches)
                                  && project.itemManager == old(project.itemManager)
    {
      if project == null {
        return false;
      }
      var content := project.Content();
      if content.None? || !content.value.Array? {
        return false;
      }
      var gallery := content.value.items;
      var index := FindGalleryTile(gallery, itemUid);
      if index.Raised? || index.value.None? {
        return false;
      }
      var i := index.value.value;
      var args := BindUpdateArgs(data);
      if args.Raised? {
        return false;
      }
      var tile := UpdateTile(gallery[i].fields, args.value);
      if tile.Raised? {
        return false;
      }
      gallery := gallery[i := Object(tile.value)];
      project.SetContent(Array(gallery));
      return true;
    }

    /** _get_annotation_uid: None without a project; otherwise the project is
        fetched (a failure raises) and its gallery scanned. */
    method GetAnnotationUid(projectUid: string, imageItemUid: string, username: string) returns (r: Result<Json>)
      requires Valid()
      modifies project
      ensures Valid()
      ensures project != null ==> project.fetches == old(project.fetches + project.FetchCost(projectUid))
      ensures project != null && projectUid in old(project.collections) ==> project.Caches(projectUid)
      ensures project != null && projectUid !in old(project.collections) ==>
                project.project == old(project.project) && project.itemManager == old(project.itemManager)
      ensures project == null ==> r == Ok(Null)
      ensures project != null ==> && project.collections == old(project.collections)
                                  && project.items == old(project.items)
      ensures project != null ==> r == if projectUid in project.collections
                                       then AnnotationUidIn(project.collections[projectUid], imageItemUid, username)
                                       else Raised
    {
      if project == null {
        return Ok(Null);
      }
      var ok := project.FetchProjectData(projectUid);
      if !ok {
        return Raised;
      }
      var gallery := project.Content().value;
      var tiles := Tiles(gallery);
      if tiles.Raised? {
        return Raised;
      }
      r := ScanAnnotationUid(tiles.value, imageItemUid, username);
    }

    /** get_project_item: None without a project; otherwise the project is
        fetched (a failure raises) and the item fetched, a failure there being
        caught and turned into None. */
    method GetProjectItem(projectUid: string, itemUid: string) returns (r: Result<Option<Item>>)
      requires Valid()
      modifies project
      ensures Valid()
      ensures project != null ==> project.fetches == old(project.fetches + project.FetchCost(projectUid))
      ensures project != null && projectUid in old(project.collections) ==> project.Caches(projectUid)
      ensures project != null && projectUid !in old(project.collections) ==>
                project.project == old(project.project) && project.itemManager == old(project.itemManager)
      ensures project == null ==> r == Ok(None)
      ensures project != null ==> && project.collections == old(project.collections)
                                  && project.items == old(project.items)
      ensures project != null ==> r == if projectUid in project.collections
                                       then Ok(StoredItem(project.items, projectUid, itemUid))
                                       else Raised
      ensures project != null && projectUid in project.collections ==>
                project.project == Some(Collection(projectUid, project.collections[projectUid]))
    {
      if project == null {
        return Ok(None);
      }
      var ok := project.FetchProjectData(projectUid);
      if !ok {
        return Raised;
      }
      var item := project.FetchItem(itemUid);
      if item.Raised? {
        return Ok(None);
      }
      return Ok(Some(item.value));
    }

    /** _create_annotation_item: None without a project; otherwise (the
        project fetched, a failure raising) a new annotation item holding the
        annotations is stored under newItemUid, the gallery tile of the image
        records the user's item and an incomplete annotation (what
        _update_gallery_tile writes, or nothing when it fails), and the new uid
        is returned. */
    method CreateAnnotationItem(projectUid: string, imageItemUid: string, username: string, annotations: seq<Json>,
                                metadata: map<string, Json>, newItemUid: string, now: int)
      returns (r: Result<Option<string>>)
      requires Valid()
      modifies project
      ensures Valid()
      ensures project != null ==> project.fetches == old(project.fetches + project.FetchCost(projectUid))
      ensures project != null && projectUid in old(project.collections) ==> project.Caches(projectUid)
      ensures project != null && projectUid !in old(project.collections) ==>
                project.project == old(project.project) && project.itemManager == old(project.itemManager)
      ensures project == null ==> r == Ok(None)
      ensures project != null && projectUid !in old(project.collections) ==>
                r == Raised && project.collections == old(project.collections) && project.items == old(project.items)
      ensures project != null && projectUid in old(project.collections) ==>
                && r == Ok(Some(newItemUid))
                && project.items == WithItem(old(project.items), projectUid, newItemUid,
                                             Item(AnnotationItemMeta(now), Array(annotations)))
                && project.collections
                   == old(project.collections)[projectUid := ContentAfterTileUpdate(
                                                               old(project.collections)[projectUid], imageItemUid,
                                                               AnnotationTileUpdate(metadata, username, newItemUid))]
    {
      if project == null {
        return Ok(None);
      }
      var ok := project.FetchProjectData(projectUid);
      if !ok {
        return Raised;
      }
      project.WriteItem(newItemUid, Item(AnnotationItemMeta(now), Array(annotations)));
      var _ := UpdateGalleryTile(imageItemUid, AnnotationTileUpdate(metadata, username, newItemUid));
      return Ok(Some(newItemUid));
    }

    /** _update_annotation_item: None without a project; otherwise (the
        project fetched, a failure raising) the item is read back, its last
        annotation dropped and the new annotations appended as the code is
        written (see RewrittenContent), its modification time set, and, when
        metadata is not empty, a tile update built by _create_tile_update is
        sent. A missing item or content the rewrite cannot handle raises and
        writes nothing. */
    method UpdateAnnotationItem(projectUid: string, imageItemUid: string, annotationItemUid: string,
                                annotations: seq<Json>, metadata: map<string, Json>, now: int)
      returns (r: Result<Option<string>>)
      requires Valid()
      modifies project
      ensures Valid()
      ensures project != null ==> project.fetches == old(project.fetches + project.FetchCost(projectUid))
      ensures project != null && projectUid in old(project.collections) ==> project.Caches(projectUid)
      ensures project != null && projectUid !in old(project.collections) ==>
                project.project == old(project.project) && project.itemManager == old(project.itemManager)
      ensures project == null ==> r == Ok(None)
      ensures project != null ==>
                var before := StoredItem(old(project.items), projectUid, annotationItemUid);
                var written := before.Some? && RewrittenContent(before.value.content, annotations).Ok?;
                && (projectUid !in old(project.collections) || !written ==>
                      r == Raised && project.collections == old(project.collections)
                      && project.items == old(project.items))
                && (projectUid in old(project.collections) && written ==>
                      && r == Ok(Some(annotationItemUid))
                      && project.items
                         == WithItem(old(project.items), projectUid, annotationItemUid,
                                     Item(Touched(before.value, now).meta,
                                          Array(RewrittenContent(before.value.content, annotations).value)))
                      && project.collections
                         == old(project.collections)[projectUid :=
                              if |metadata| == 0 then old(project.collections)[projectUid]
                              else ContentAfterTileUpdate(old(project.collections)[projectUid], imageItemUid,
                                                          CreateTileUpdate(metadata := metadata))])
    {
      if project == null {
        return Ok(None);
      }
      var ok := project.FetchProjectData(projectUid);
      if !ok {
        return Raised;
      }
      var fetched := GetProjectItem(projectUid, annotationItemUid);
      if fetched.Raised? || fetched.value.None? {
        return Raised;
      }
      r := WriteAnnotationUpdate(projectUid, imageItemUid, annotationItemUid, fetched.value.value, annotations,
                                 metadata, now);
    }

    /** The writes of _update_annotation_item once the item has been read:
        the rewritten content with its modification time, then, when metadata
        is given, the tile update. Content the rewrite cannot handle raises
        before anything is written. */
    method WriteAnnotationUpdate(projectUid: string, imageItemUid: string, annotationItemUid: string, item: Item,
                                 annotations: seq<Json>, metadata: map<string, Json>, now: int)
      returns (r: Result<Option<string>>)
      requires Valid() && project != null && project.Caches(projectUid)
      modifies project
      ensures Valid()
      ensures project.fetches == old(project.fetches) && project.Caches(projectUid)
      ensures RewrittenContent(item.content, annotations).Raised? ==>
                r == Raised && project.collections == old(project.collections) && project.items == old(project.items)
      ensures RewrittenContent(item.content, annotations).Ok? ==>
                && r == Ok(Some(annotationItemUid))
                && project.items
                   == WithItem(old(project.items), projectUid, annotationItemUid,
                               Item(Touched(item, now).meta, Array(RewrittenContent(item.content, annotations).value)))
                && project.collections
                   == old(project.collections)[projectUid :=
                        if |metadata| == 0 then old(project.collections)[projectUid]
                        else ContentAfterTileUpdate(old(project.collections)[projectUid], imageItemUid,
                                                    CreateTileUpdate(metadata := metadata))]
    {
      var content := RewriteContent(item.content, annotations);
      if content.Raised? {
        return Raised;
      }
      var written := Touched(item, now).(content := Array(content.value));
      project.WriteItem(annotationItemUid, written);
      if |metadata| > 0 {
        var data := CreateTileUpdate(metadata := metadata);
        var _ := UpdateGalleryTile(imageItemUid, data);
      }
      return Ok(Some(annotationItemUid));
    }

    /** upload_annotation: looks up the user's annotation item for the image;
        with none it creates one (under newItemUid), with one it updates it,
        and returns the item's uid (None when there is no project). */
    method UploadAnnotation(projectUid: string, imageItemUid: string, username: string, annotations: seq<Json>,
                            metadata: map<string, Json>, newItemUid: string, now: int)
      returns (r: Result<Json>)
      requires Valid()
      requires project != null ==> StoredItem(project.items, projectUid, newItemUid).None?
      modifies project
      ensures Valid()
      ensures project != null ==> project.fetches == old(project.fetches + project.FetchCost(projectUid))
      ensures project != null && projectUid in old(project.collections) ==> project.Caches(projectUid)
      ensures project != null && projectUid !in old(project.collections) ==>
                project.project == old(project.project) && project.itemManager == old(project.itemManager)
      ensures project == null ==> r == Ok(Null)
      ensures project != null && projectUid !in old(project.collections) ==>
                r == Raised && project.collections == old(project.collections) && project.items == old(project.items)
      ensures project != null && projectUid in old(project.collections) ==>
                var found := AnnotationUidIn(old(project.collections)[projectUid], imageItemUid, username);
                found == Raised || (found.Ok? && found.value != Null && !found.value.Str?) ==>
                  r == Raised && project.collections == old(project.collections) && project.items == old(project.items)
      ensures project != null && projectUid in old(project.collections) ==>
                var content := old(project.collections)[projectUid];
                var data := AnnotationTileUpdate(metadata, username, newItemUid);
                AnnotationUidIn(content, imageItemUid, username) == Ok(Null) ==>
                  && r == Ok(Str(newItemUid))
                  && project.items == WithItem(old(project.items), projectUid, newItemUid,
                                               Item(AnnotationItemMeta(now), Array(annotations)))
                  && project.collections
                     == old(project.collections)[projectUid := ContentAfterTileUpdate(content, imageItemUid, data)]
                  && (GalleryAfterUpdate(content, imageItemUid, data).Some? ==>
                        AnnotationUidIn(project.collections[projectUid], imageItemUid, username) == Ok(Str(newItemUid)))
      ensures project != null && projectUid in old(project.collections) ==>
                var content := old(project.collections)[projectUid];
                var found := AnnotationUidIn(content, imageItemUid, username);
                found.Ok? && found.value.Str? ==>
                  var before := StoredItem(old(project.items), projectUid, found.value.s);
                  if before.Some? && RewrittenContent(before.value.content, annotations).Ok?
                  then && r == Ok(found.value)
                       && project.items
                          == WithItem(old(project.items), projectUid, found.value.s,
                                      Item(Touched(before.value, now).meta,
                                           Array(RewrittenContent(before.value.content, annotations).value)))
                       && project.collections
                          == old(project.collections)[projectUid :=
                               if |metadata| == 0 then content
                               else ContentAfterTileUpdate(content, imageItemUid, CreateTileUpdate(metadata := metadata))]
                  else r == Raised && project.collections == old(project.collections)
                       && project.items == old(project.items)
    {
      var found := GetAnnotationUid(projectUid, imageItemUid, username);
      if found.Raised? {
        return Raised;
      }
      var annotationItemUid := found.value;
      if annotationItemUid == Null {
        ghost var content := if project != null && projectUid in project.collections
                             then project.collections[projectUid] else Null;
        var created := CreateAnnotationItem(projectUid, imageItemUid, username, annotations, metadata, newItemUid, now);
        if GalleryAfterUpdate(content, imageItemUid, AnnotationTileUpdate(metadata, username, newItemUid)).Some? {
          RegisteredAnnotationIsFound(content, imageItemUid, metadata, username, newItemUid);
        }
        if created.Raised? {
          return Raised;
        }
        return Ok(if created.value.Some? then Str(created.value.value) else Null);
      }
      if !annotationItemUid.Str? {
        // `item_manager.fetch` refuses a uid that is not a str, get_project_item
        // returns None, and `item.content` raises.
        return Raised;
      }
      var updated := UpdateAnnotationItem(projectUid, imageItemUid, annotationItemUid.s, annotations, metadata, now);
      if updated.Raised? {
        return Raised;
      }
      return Ok(annotationItemUid);
    }

    /** update_metadata_and_labels: returns at once when there is neither
        metadata nor a label (None and [] alike) or no project; otherwise (the
        project fetched, a failure raising) the image item's modification time
        is set, a missing item raising, and a tile update carrying the labels
        and metadata is sent. */
    method UpdateMetadataAndLabels(projectUid: string, itemUid: string, imageLabels: Option<seq<string>>,
                                   metadata: map<string, Json>, now: int)
      returns (r: Result<()>)
      requires Valid()
      modifies project
      ensures Valid()
      ensures project != null && (|metadata| > 0 || (imageLabels.Some? && |imageLabels.value| > 0)) ==>
                && project.fetches == old(project.fetches + project.FetchCost(projectUid))
                && (projectUid in old(project.collections) ==> project.Caches(projectUid))
                && (projectUid !in old(project.collections) ==>
                      project.project == old(project.project) && project.itemManager == old(project.itemManager))
      ensures (|metadata| == 0 && (imageLabels.None? || |imageLabels.value| == 0)) || project == null ==>
                r == Ok(()) && (project == null || unchanged(project))
      ensures project != null && (|metadata| > 0 || (imageLabels.Some? && |imageLabels.value| > 0)) ==>
                var before := StoredItem(old(project.items), projectUid, itemUid);
                if projectUid in old(project.collections) && before.Some?
                then && r == Ok(())
                     && project.items == WithItem(old(project.items), projectUid, itemUid, Touched(before.value, now))
                     && project.collections
                        == old(project.collections)[projectUid := ContentAfterTileUpdate(
                                                                    old(project.collections)[projectUid], itemUid,
                                                                    CreateTileUpdate(imageLabels, metadata))]
                else r == Raised && project.collections == old(project.collections)
                     && project.items == old(project.items)
    {
      var noLabels := imageLabels.None? || |imageLabels.value| == 0;
      if (|metadata| == 0 && noLabels) || project == null {
        return Ok(());
      }
      var ok := project.FetchProjectData(projectUid);
      if !ok {
        return Raised;
      }
      var fetched := GetProjectItem(projectUid, itemUid);
      if fetched.Raised? || fetched.value.None? {
        return Raised;
      }
      project.WriteItem(itemUid, Touched(fetched.value.value, now));
      var data := CreateTileUpdate(imageLabels := imageLabels, metadata := metadata);
      var _ := UpdateGalleryTile(itemUid, data);
      return Ok(());
    }
  }
}
