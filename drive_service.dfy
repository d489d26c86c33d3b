/** The Google Drive adapter's side-effecting operations, run against an abstract Drive:
    a map from object id to stored object. What the remote service answers (the id it
    assigns, whether a call fails) is an input. */
module DriveService {
  import opened Basics
  import opened DriveNaming

  const FolderMimeType := "application/vnd.google-apps.folder"

  /** An object stored in Drive: a folder or a file, with its parents, its bytes and
      whether anyone with the link may read it. */
  datatype DriveObject = DriveObject(
    name: string, mimeType: string, parents: seq<string>, content: seq<bv8>, publicRead: bool)

  /** The remote Drive. */
  class Drive {
    var objects: map<string, DriveObject>

    constructor (objects: map<string, DriveObject>)
      ensures this.objects == objects
    {
      this.objects := objects;
    }

    /** `drive.files.create`: stores `meta` under the id the service assigns (`newId`),
        or fails when the call does (`newId == None`). */
    method FilesCreate(meta: DriveObject, newId: Option<string>) returns (r: Result<string, DriveError>)
      requires newId.Some? ==> newId.value !in objects
      modifies this
      ensures newId.None? ==> r == Failure(ApiError) && objects == old(objects)
      ensures newId.Some? ==>
        r == Success(newId.value) && objects == old(objects)[newId.value := meta]
    {
      if newId.None? {
        return Failure(ApiError);
      }
      objects := objects[newId.value := meta];
      r := Success(newId.value);
    }

    /** `drive.permissions.create` with role `reader` for `anyone`: fails when the call
        fails or the object does not exist. */
    method MakePublic(id: string, succeeds: bool) returns (r: Result<(), DriveError>)
      modifies this
      ensures succeeds && id in old(objects) ==>
        r == Success(()) && objects == old(objects)[id := old(objects)[id].(publicRead := true)]
      ensures !(succeeds && id in old(objects)) ==> r == Failure(ApiError) && objects == old(objects)
    {
      if !succeeds || id !in objects {
        return Failure(ApiError);
      }
      objects := objects[id := objects[id].(publicRead := true)];
      r := Success(());
    }
  }

  /** Creating an object and then granting (or failing to grant) public read leaves it stored
      with `publicRead` telling whether the grant went through. */
  lemma PublishCreated(before: map<string, DriveObject>, id: string, meta: DriveObject,
                       after: map<string, DriveObject>, created: map<string, DriveObject>,
                       granted: bool)
    requires !meta.publicRead
    requires created == before[id := meta]
    requires granted ==> after == created[id := created[id].(publicRead := true)]
    requires !granted ==> after == created
    ensures after == before[id := meta.(publicRead := granted)]
  {
    if granted {
      assert created[id] == meta;
      assert before[id := meta][id := meta.(publicRead := true)] == before[id := meta.(publicRead := true)];
    } else {
      assert meta.(publicRead := false) == meta;
    }
  }

  /** `GoogleDriveService`: one Drive session and the environment it was configured from. */
  class GoogleDriveService {
    const drive: Drive
    const env: map<string, string>

    constructor (drive: Drive, env: map<string, string>)
      ensures this.drive == drive && this.env == env
    {
      this.drive := drive;
      this.env := env;
    }

    /** `createVehicleFolder`: an unknown or unconfigured category throws before anything is
        created; otherwise the folder is created under the category's parent and made
        public, and its id returned. A failed permission call leaves the folder created but
        not public. */
    method CreateVehicleFolder(tipoVeiculo: string, marca: string, modelo: string,
                               versao: Option<string>, ano: string, nowIso: string,
                               newId: Option<string>, permissionGranted: bool)
      returns (r: Result<string, DriveError>)
      requires newId.Some? ==> newId.value !in drive.objects
      modifies drive
      ensures ParentFolderId(env, tipoVeiculo).Failure? ==>
        r == Failure(ParentFolderNotFound(tipoVeiculo)) && drive.objects == old(drive.objects)
      ensures ParentFolderId(env, tipoVeiculo).Success? && newId.None? ==>
        r == Failure(ApiError) && drive.objects == old(drive.objects)
      ensures ParentFolderId(env, tipoVeiculo).Success? && newId.Some? ==>
        drive.objects == old(drive.objects)[newId.value := DriveObject(
          FolderName(marca, modelo, versao, ano, CompactTimestamp(nowIso)), FolderMimeType,
          [ParentFolderId(env, tipoVeiculo).value], [], permissionGranted)]
        && r == (if permissionGranted then Success(newId.value) else Failure(ApiError))
    {
      var timestamp := CompactTimestamp(nowIso);
      var folderName := FolderName(marca, modelo, versao, ano, timestamp);
      var parent := ParentFolderId(env, tipoVeiculo);
      if parent.Failure? {
        return Failure(parent.error);
      }
      var meta := DriveObject(folderName, FolderMimeType, [parent.value], [], false);
      var folder := drive.FilesCreate(meta, newId);
      if folder.Failure? {
        return Failure(folder.error);
      }
      ghost var created := drive.objects;
      var permission := drive.MakePublic(folder.value, permissionGranted);
      PublishCreated(old(drive.objects), newId.value, meta, drive.objects, created, permissionGranted);
      if permission.Failure? {
        return Failure(permission.error);
      }
      r := Success(folder.value);
    }

    /** `uploadPhoto`: stores the file in the folder as `foto_<ordem>.<ext>`, makes it
        public and returns its direct-view URL. */
    method UploadPhoto(folderId: string, file: File, ordem: nat,
                       newId: Option<string>, permissionGranted: bool)
      returns (r: Result<string, DriveError>)
      requires newId.Some? ==> newId.value !in drive.objects
      modifies drive
      ensures newId.None? ==> r == Failure(ApiError) && drive.objects == old(drive.objects)
      ensures newId.Some? ==>
        drive.objects == old(drive.objects)[newId.value := DriveObject(
          FotoName(ordem, file.originalName), file.mimeType, [folderId], file.content,
          permissionGranted)]
        && r == (if permissionGranted then Success(PhotoUrl(newId.value)) else Failure(ApiError))
      ensures r.Success? ==> newId.Some? && IdOfUrl(r.value) == newId
    {
      var meta := DriveObject(FotoName(ordem, file.originalName), file.mimeType, [folderId], file.content, false);
      var uploaded := drive.FilesCreate(meta, newId);
      if uploaded.Failure? {
        return Failure(uploaded.error);
      }
      ghost var created := drive.objects;
      var permission := drive.MakePublic(uploaded.value, permissionGranted);
      PublishCreated(old(drive.objects), newId.value, meta, drive.objects, created, permissionGranted);
      if permission.Failure? {
        return Failure(permission.error);
      }
      PhotoUrlRoundTrip(uploaded.value);
      r := Success(PhotoUrl(uploaded.value));
    }

    /** `listFolderPhotos`: maps the listing the service returns (its query, filter and
        order are the service's) to id, name and direct-view URL, one entry per file in
        the same order; a failed call propagates. */
    method ListFolderPhotos(folderId: string, response: Result<seq<ApiFile>, DriveError>)
      returns (r: Result<seq<PhotoInfo>, DriveError>)
      ensures response.Failure? ==> r == Failure(response.error)
      ensures response.Success? ==> r.Success? && |r.value| == |response.value|
      ensures response.Success? ==> forall i :: 0 <= i < |response.value| ==>
        r.value[i].id == response.value[i].id && r.value[i].name == response.value[i].name
        && IdOfUrl(r.value[i].url) == Some(response.value[i].id)
    {
      if response.Failure? {
        return Failure(response.error);
      }
      r := Success(PhotoInfos(response.value));
    }
  }
}
