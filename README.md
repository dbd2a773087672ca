# gliff.py: gallery and annotation bookkeeping

This project models the part of the gliff Python client (`gliff.py`) that keeps
a project's gallery and its annotation items consistent:

- the annotation dictionaries the client builds and the emptiness test
  `is_empty_annotation`;
- the gallery, which is the decoded content of the project collection: a list
  of tiles, one per image item, keyed by `"id"`;
- the tile builders `_create_new_tile` and `_create_tile_update`;
- the lookup `_find_gallery_tile`;
- the in-place `update_tile` of `_update_gallery_tile`, together with Python's
  binding of `**tile_data` to its parameters;
- the scan `_get_annotation_uid`;
- the two stateful classes `Project` (a cached collection and its item manager)
  and `Gliff` (a logged-in account and its project), with the upload paths
  `upload_annotation`, `_create_annotation_item`, `_update_annotation_item`
  and `update_metadata_and_labels`.

Modelling choices:

- The Etebase server is abstracted. `Project` holds the decoded content of
  every collection the account can see and the items of every collection, as
  maps. A fetch reads these maps and a transaction writes them.
- Item and collection contents are held decoded. A `Json` datatype stands for
  what `json.loads` returns.
- Every kind of exception folds into one `Raised` outcome of a `Result`.
  Where the source catches an exception, the model returns the source's
  fallback instead: `_create_gallery_tile` and `_update_gallery_tile` log
  and write nothing, shown as `written == false`, and `get_project_item`
  gives `None` when the item fetch fails.
- The uid the server would give a new item and the current time are
  parameters.
- A new item's uid is chosen by the server, which never reuses one:
  `UploadAnnotation` takes it as a parameter that names no stored item.
- Two defects of the code are listed under "## Findings". The classes model
  the code as written, defects included (`RewrittenContent`,
  `CreateTileUpdate`). Beside each as-written member stands the corrected
  definition (`IntendedContent`, `CreateTileUpdateIntended`) with its
  intended property proved.

Modules:

- `JsonValue` (`json.dfy`): the JSON values and Python lookups.
- `Annotations` (`annotations.dfy`): annotation builders, the emptiness test,
  and the rewrite of an annotation item's content.
- `Gallery` (`gallery.dfy`): tiles, `update_tile`, tile lookup and the
  annotation-uid scan.
- `Client` (`client.dfy`): the classes `Project` and `Gliff`.

## Model

| member | source | states |
|---|---|---|
| Annotations.CreateXYPoint | gliff.py:275-277 | The point has exactly the keys "x" and "y", holding the given coordinates. |
| Annotations.CreateBrushStroke | gliff.py:195-225 | The stroke has exactly the keys "coordinates", "spaceTimeInfo" and "brush", holding the arguments; the defaults are the first slice and time and a red paint brush. |
| Annotations.CreateSpline | gliff.py:228-247 | The spline has exactly the keys "coordinates", "spaceTimeInfo" and "isClosed", holding the arguments. |
| Annotations.CreateBoundingBox | gliff.py:250-272 | Both corners sit under "coordinates", and the slice and time under "spaceTimeInfo"; there are no other keys. |
| Annotations.CreateAnnotation | gliff.py:280-330 | The annotation has exactly the six keys the source writes: the toolbox's name, the labels as a list, and the spline, bounding box, strokes and parameters as given. |
| Annotations.IsEmptyAnnotation | gliff.py:177-192 | It raises exactly when one of the three lookups fails; all three run, because `&` does not short-circuit. It is true iff the spline has no points, there are no brush strokes and the top-left x is None. |
| Annotations.DefaultAnnotationIsEmpty | gliff.py:280-330 | An annotation built from create_annotation's defaults is empty, for every toolbox, label list and parameters. |
| Annotations.BrushStrokeFillsAnnotation | gliff.py:188-192 | An annotation holding one brush stroke built by create_brush_stroke is not empty, whatever the stroke's points. |
| Annotations.BuiltAnnotationEmptiness | gliff.py:177-192 | An annotation assembled from the constructors is empty iff its spline has no points, it has no strokes and its top-left x is None. |
| Annotations.RewrittenContent | gliff.py:955-962 | As written: the rewrite succeeds iff the content is a non-empty list whose last element is_empty_annotation can test. The result then always drops the last element and appends the new annotations. |
| Annotations.RewriteContent | gliff.py:955-962 | The step-by-step rewrite as written (test, pop whenever the list is not empty, append) computes RewrittenContent. |
| Annotations.IntendedContent | gliff.py:954-962 | The rewrite the comment describes succeeds iff the previous content is an empty dict or str, or a list that is empty or whose last element can be tested. |
| Annotations.RewriteAgreesWhenLastIsEmpty | gliff.py:955-962 | For a previous list whose last item can be tested, the as-written and the intended rewrites agree exactly when there is a last annotation and it is empty. |
| Annotations.IntendedContentKeepsFilledAnnotations | gliff.py:954-962 | With the intended test, only an empty last annotation is dropped. Every other previous annotation that is not empty keeps its place, and the new ones follow. |
| Annotations.PrecedenceDropsFilledAnnotation | gliff.py:957-958 | Counterexample: one spline annotation with a point, updated with nothing, is lost as written but kept as intended. |
| Annotations.PrecedenceRaisesOnEmptyItem | gliff.py:957 | Counterexample: an item whose content is the empty list raises as written, but yields the new annotations as intended. |
| Gallery.CreateNewTile | gliff.py:505-547 | The tile has exactly the eight keys. "id" and "imageUID" both hold the image uid, and the metadata sits under "fileInfo"; the labels and the three per-user maps hold the arguments. |
| Gallery.CreateTileUpdate | gliff.py:464-503 | As written, the update carries "fileInfo", "annotationUID", "auditUID" and "annotationComplete", plus "imageLabels" only when labels are given. It has no "metadata" key and no "tile" key. |
| Gallery.CreateTileUpdateIntended | gliff.py:491-503 | The update with the metadata under the key update_tile reads, "metadata"; otherwise it is the same as CreateTileUpdate. |
| Gallery.BindUpdateArgs | gliff.py:597-602 | Binding `**tile_data` succeeds iff there is no "tile" key. Each parameter receives its key's value, or None when the key is absent. Exactly the other keys land in `**kwargs`, with their values. |
| Gallery.FileInfoLandsInKwargs | gliff.py:493 | An update built by _create_tile_update binds `metadata` to None. Its metadata lands in `**kwargs` under "fileInfo", and the other parameters are bound as built. |
| Gallery.IntendedUpdateBinds | gliff.py:597-602 | An update built as intended binds `metadata` to the metadata and every other parameter as built, and leaves `**kwargs` empty. |
| Gallery.MergeField | gliff.py:604-609 | `tile[key].update(u)` succeeds iff u is None or both sides are dicts. The nested dict becomes old + u, and every other key is unchanged. |
| Gallery.MergeUids | gliff.py:604-609 | The three merges into "fileInfo", "annotationUID" and "auditUID" succeed iff each can run. Each of those entries is merged, and every other key is unchanged. |
| Gallery.MergeCompletion | gliff.py:610-613 | setdefault followed by update succeeds iff the update is None, or it is a dict and the existing entry (if any) is a dict. The entry becomes old-or-empty + update, and the other keys are unchanged. |
| Gallery.MergeUpdate | gliff.py:595-616 | update_tile succeeds iff every merge it attempts can run. It keeps the tile's keys (adding "annotationComplete" when it is set) and changes no key outside the five it writes. The completion map is merged, and "imageLabels" is replaced exactly when labels are passed. |
| Gallery.UpdateTile | gliff.py:595-616 | The step-by-step update_tile on a copy of the tile computes MergeUpdate. |
| Gallery.MergeUpdateMergesUids | gliff.py:604-609 | After update_tile, "fileInfo", "annotationUID" and "auditUID" each hold the old dict updated with the argument, or the old value when the argument is None. |
| Gallery.MergeUpdateAgain | gliff.py:595-616 | A tile that update_tile accepted accepts the same arguments again. |
| Gallery.MergeUpdateTwiceAt | gliff.py:595-616 | Applying update_tile twice gives, at every key, the same value as applying it once. |
| Gallery.MergeUpdateIdempotent | gliff.py:595-616 | update_tile is idempotent: applying the same arguments twice gives the same tile as applying them once. |
| Gallery.NewTileAcceptsEveryUpdate | gliff.py:505-547 | Every update _create_tile_update can build, as written or as intended, binds successfully, and update_tile accepts it on every tile _create_new_tile can build. |
| Gallery.IdMatches | gliff.py:578 | `tile["id"] == id` raises iff the tile has no "id" (or is not a dict), and is true iff the tile's "id" is that str. |
| Gallery.FirstTileIndexFrom | gliff.py:577-580 | A returned index lies in range, and the tile at it has the requested id. |
| Gallery.FirstTileIndex | gliff.py:574-580 | A returned index is in range and the tile at it is a dict. |
| Gallery.FirstTileIndexSpec | gliff.py:574-580 | The result is the first tile whose "id" equals the id. The lookup raises iff some earlier tile has no "id" (or is not a dict). It gives None iff every tile has an "id" that differs. |
| Gallery.FindGalleryTile | gliff.py:574-580 | The loop with its early return computes FirstTileIndex. |
| Gallery.AppendedGallery | gliff.py:561-568 | The written gallery exists iff the content is a list, and it is that list with the tile appended. |
| Gallery.UpdatedGallery | gliff.py:620-629 | The update succeeds iff a tile is found, binding succeeds and update_tile succeeds. Only the found tile is replaced, by update_tile's result, and the length is kept. |
| Gallery.GalleryAfterUpdate | gliff.py:585-631 | The content written is the updated gallery, and nothing is written when anything raises. |
| Gallery.ContentAfterTileUpdate | gliff.py:620-629 | The content after the call is the updated gallery when it was written, and the old content otherwise. |
| Gallery.UpdateNeverChangesFileInfo | gliff.py:491-497 | As written, no update built by _create_tile_update changes any tile's "fileInfo", whatever metadata it carries. |
| Gallery.UpdateReplacesLabelsOnlyWhenGiven | gliff.py:499-500 | The found tile's "imageLabels" is replaced by the given labels when labels are passed, and kept otherwise. |
| Gallery.IntendedUpdateMergesMetadata | gliff.py:604-605 | With the update built as intended, whatever else it carries, the found tile's "fileInfo" becomes the old dict updated with the metadata. |
| Gallery.MetadataUpdateIsSwallowed | gliff.py:491-497 | Counterexample: as written, updating a fresh tile with metadata {"width": 3} succeeds but leaves "fileInfo" empty. |
| Gallery.MetadataUpdateIsRecordedAsIntended | gliff.py:604-605 | With the update built as intended, the same update records {"width": 3} in "fileInfo". |
| Gallery.AppendedTileIsFound | gliff.py:561-580 | After _create_gallery_tile appends a tile with a new id, _find_gallery_tile finds it at the last index. |
| Gallery.Tiles | gliff.py:852-853 | `for tile in gallery` yields the tiles of a list. An empty dict or str yields nothing. Anything else raises, either because it is not iterable or because its first element cannot be subscripted with "id". |
| Gallery.AnnotationUidStep | gliff.py:852-858 | A tile without "id" raises. A tile with another id lets the scan go on. A matching tile stops the scan with the user's entry when its "annotationUID" dict holds the user, and lets the scan go on when that dict lacks the user. Without "annotationUID" it raises. On a list or str, `username in` is membership or substring, and when it holds, the subscription raises. |
| Gallery.AnnotationUidFrom | gliff.py:852-858 | A uid found from index i comes from a tile at or after i that stops the scan with it. A raise comes from such a tile that raises. |
| Gallery.AnnotationUidIn | gliff.py:849-858 | A gallery that cannot be iterated raises. A uid found comes from a tile of the gallery list. |
| Gallery.AnnotationUidFromSpec | gliff.py:852-858 | After a prefix of tiles that do not match, the loop gives None at the end, raises where a tile raises, or gives the first matching tile's entry. |
| Gallery.AnnotationUidSpec | gliff.py:828-858 | _get_annotation_uid returns the user's entry in the first matching tile, None when no tile matches, and raises at the first tile that cannot be tested. |
| Gallery.ScanAnnotationUid | gliff.py:852-858 | The loop with its `break` computes the scan's specification. |
| Gallery.AnnotationTileUpdate | gliff.py:910-912 | The update _create_annotation_item sends binds `annotationUID` to {user: new uid} and `annotationComplete` to {user: False}. Its metadata lands in `**kwargs`, and `metadata` and `imageLabels` are None. |
| Gallery.MergeUpdateRecordsUid | gliff.py:606-607 | update_tile keeps "id", and afterwards the tile's "annotationUID" holds the user's uid from the update. |
| Gallery.RegisteredAnnotationIsFound | gliff.py:910-913 | Once _update_gallery_tile has written the update _create_annotation_item sends, _get_annotation_uid on the written content returns the new item's uid for that image and user. So the next upload for them updates that item. |
| Client.StoredItem | gliff.py:435-461 | An item is found iff the collection and the uid are present, and it is the stored item. |
| Client.WithItem | gliff.py:905-906 | After a transaction the item is stored under its uid, and every other item is unchanged. |
| Client.AnnotationItemMeta | gliff.py:895-901 | A new annotation item's meta has exactly the four keys: type "gliff.annotation", equal created and modified times, and not complete. |
| Client.Touched | gliff.py:733-736 | `{**item.meta, "modifiedTime": now}` sets the modification time, keeps every other meta entry, and leaves the content alone. |
| Client.Project.constructor | gliff.py:16-19 | Nothing is cached, and the server state is the one given. |
| Client.Project.FetchProjectData | gliff.py:21-29 | It fetches only when nothing is cached or the cached uid differs. A matching cache leaves everything unchanged. A successful fetch caches the collection and its item manager. An unknown uid raises and leaves the cache alone. The cache stays coherent with the server. |
| Client.Project.Content | gliff.py:90-93 | The content is None iff nothing is cached; otherwise it is the server's content of the cached collection. |
| Client.Project.SetContent | gliff.py:95-100 | With a project cached, its content is replaced and written to the server. Otherwise nothing changes. |
| Client.Project.FetchItem | gliff.py:447-461 | It raises without an item manager or when the item is missing; otherwise it returns the stored item. |
| Client.Project.WriteItem | gliff.py:964 | The item is stored under its uid in the cached collection; nothing else changes. |
| Client.Gliff.constructor | gliff.py:104-109 | Without an access key the client is not logged in and has no project. |
| Client.Gliff.Login | gliff.py:363-384 | The account is set, and a fresh Project with nothing cached is attached. |
| Client.Gliff.Logout | gliff.py:386-394 | Afterwards there is no account and no project. A client that was not logged in is unchanged. |
| Client.Gliff.GalleryContent | gliff.py:570-571 | The gallery exists iff a project with a cached collection exists. It is that collection's content, which for a valid project is the server's content. |
| Client.Gliff.CreateGalleryTile | gliff.py:550-568 | Something is written iff a project is cached and its content is a list. The written content is the gallery with the tile appended. Items and the item manager are untouched; a failure changes nothing. |
| Client.Gliff.UpdateGalleryTile | gliff.py:585-631 | Something is written iff the gallery update succeeds. The written content is GalleryAfterUpdate. Items are untouched; a failure changes nothing. |
| Client.Gliff.GetAnnotationUid | gliff.py:828-858 | Without a project the result is None. An unknown project raises. Otherwise the result is the scan of that project's gallery, and the server state is unchanged. It fetches at most once, and never when the collection is already cached; a known project is left cached with its item manager, and an unknown one leaves the cache as it was. |
| Client.Gliff.GetProjectItem | gliff.py:435-461 | Without a project the result is None. An unknown project raises. Otherwise the result is the stored item, or None when it is missing, and the project is cached. It fetches at most once, and never when the collection is already cached; a known project is left cached with its item manager, and an unknown one leaves the cache as it was. |
| Client.Gliff.CreateAnnotationItem | gliff.py:860-915 | A new item with the annotation meta and the annotations is stored under the new uid. The gallery becomes what _update_gallery_tile writes for the update carrying the user's uid and an incomplete flag; the metadata is not recorded. The new uid is returned. An unknown project raises and writes nothing. It fetches at most once, and never when the collection is already cached; a known project is left cached with its item manager, and an unknown one leaves the cache as it was. |
| Client.Gliff.UpdateAnnotationItem | gliff.py:917-972 | The item's content becomes RewrittenContent of the old content: the last annotation is always dropped. Its modifiedTime is set. When metadata is given, the gallery becomes what the _create_tile_update update writes. A missing item, or content the rewrite cannot handle (an empty list included), raises and writes nothing. It fetches at most once, and never when the collection is already cached; a known project is left cached with its item manager, and an unknown one leaves the cache as it was. |
| Client.Gliff.WriteAnnotationUpdate | gliff.py:956-972 | Called with the project's collection cached. Content the as-written rewrite cannot handle raises and leaves items and collections unchanged. Otherwise the item is stored with the rewritten content and a new modifiedTime, every other item unchanged. When metadata is given, the gallery becomes what the _create_tile_update update writes; otherwise it is unchanged. The item uid is returned. No fetch is made, and the collection stays cached. |
| Client.Gliff.UploadAnnotation | gliff.py:974-1012 | With no uid found, the items and gallery become CreateAnnotationItem's, and the new uid is returned. Once the tile update was written, a later lookup finds that uid. With a str uid, the items and gallery become UpdateAnnotationItem's for that uid. A raising lookup, a non-str uid or a failed update raises and writes nothing. It fetches at most once, and never when the collection is already cached; a known project is left cached with its item manager, and an unknown one leaves the cache as it was. |
| Client.Gliff.UpdateMetadataAndLabels | gliff.py:703-743 | With neither metadata nor labels (None and [] alike), or with no project, it returns at once and changes nothing. Otherwise the item's modifiedTime is set, and the gallery becomes what the _create_tile_update update writes; so the labels are replaced and "fileInfo" is left alone (UpdateReplacesLabelsOnlyWhenGiven, UpdateNeverChangesFileInfo). A missing project or item raises and writes nothing. When it does not return at once, it fetches at most once, and never when the collection is already cached; a known project is left cached with its item manager, and an unknown one leaves the cache as it was. |

## Left out

- The Etebase SDK and the network (account login, collection and item managers, invitations) are abstracted as maps held by `Project`. `_fetch_project_manager`, `_fetch_project`, `_fetch_item_manager`, `_accept_pending_invitations` and `_leave_project` are not modelled beyond that.
- JSON and base64 encoding and decoding (`_encode_content`, `_decode_content`): contents are held decoded. A content that would not decode is outside the model.
- Image handling with PIL (`base64_to_pil_image`, `pil_to_base64_image`, `_get_thumbnail_from_pil_image`, `_process_image_data`), `upload_image`, `get_image_data`, `get_metadata_and_labels` and `get_annotations` are not part of this model.
- Reading an access key from the environment (`_get_value`), decoding the access key in `login`, `__del__`, and constructing `Gliff` with a key: the model's `Login` starts after `Account.login` has succeeded.
- `get_current_time` and the uid the server gives a new item are parameters (`now`, `newItemUid`).
- Logging is left out.
- Concurrent writers: `Project.Valid` assumes this client is the only writer of the collection it caches.
- Dict key order is not modelled (maps are unordered); nothing in the core depends on it.
- `dict.update` with an iterable of pairs, or with any value that is not a dict, is modelled as raising. No caller in the core passes such a value.
- An annotation uid found by `upload_annotation` that is neither None nor a str is modelled as raising. This holds because `get_project_item` catches the failed fetch and returns None, and `item.content` then fails.
- Python's shared mutable default arguments of the builders are not modelled. Each call gets fresh dicts; the core never mutates a default.

## Findings

| source | as written | input that shows it | evidently intended | confidence | as-written member | corrected member |
|---|---|---|---|---|---|---|
| gliff.py:957 | `len(prev) > 0 & is_empty_annotation(prev[-1])` parses as `len(prev) > (0 & ...)`, so the last annotation is popped whenever the list is non-empty, and `prev[-1]` is read even when it is empty | an item holding one spline annotation with one point, updated with no annotations, loses it; an item holding `[]` raises IndexError | drop the last annotation only when it is empty (`and`), and accept an empty list | not executed | Annotations.PrecedenceDropsFilledAnnotation | Annotations.IntendedContentKeepsFilledAnnotations |
| gliff.py:493 | `_create_tile_update` puts the metadata under "fileInfo", but `update_tile` (gliff.py:597) reads a `metadata` parameter, so the metadata lands in `**kwargs` and is ignored | a fresh tile for "img", updated with `metadata={"width": 3}`, keeps an empty "fileInfo" | the metadata is merged into the tile's "fileInfo" | not executed | Gallery.MetadataUpdateIsSwallowed | Gallery.IntendedUpdateMergesMetadata |
