/**
 * The file endpoints' own logic: the extension taken from the uploaded name,
 * the size check followed by the type check, the stored name, and the
 * `files` table with its download counter and share flag. Which paths exist
 * on disk is the parameter `disk`; the random prefix of the stored name (a
 * uuid4 in hex) is the parameter `prefix`.
 */
module Files {
  import opened Wrappers
  import opened Http
  import opened Strings
  import Config

  /**
   * `filename.split('.')[-1].lower() if '.' in filename else ''`: the text
   * after the last '.', lowercased, or nothing when there is no '.'.
   */
  function FileExtension(filename: string): (ext: string)
    ensures '.' !in filename ==> ext == ""
    ensures '.' in filename ==>
              |ext| < |filename| && '.' !in ext && filename[|filename| - |ext| - 1] == '.' &&
              ext == Lower(filename[|filename| - |ext|..])
  {
    if '.' in filename then
      var pieces := Split(filename, '.');
      LastPieceIsTail(filename, '.');
      var last := pieces[|pieces| - 1];
      var ext := Lower(last);
      assert forall i :: 0 <= i < |last| ==> last[i] != '.';
      ext
    else ""
  }

  /** `', '.join(items)`. */
  function JoinWithComma(items: seq<string>): (r: string)
    ensures items != [] ==> IsPrefix(items[0], r) && |items[|items| - 1]| <= |r| && r[|r| - |items[|items| - 1]|..] == items[|items| - 1]
    ensures |items| <= 1 ==> r == (if items == [] then "" else items[0])
  {
    if items == [] then ""
    else if |items| == 1 then items[0]
    else items[0] + ", " + JoinWithComma(items[1..])
  }

  const MiB: int := 1024 * 1024

  /**
   * The checks of `upload_file`, in order: a size above the maximum is
   * rejected with 413 whatever the type; then an extension outside the
   * allowed list is rejected with 400; otherwise the extension is accepted.
   */
  function ValidateUpload(filename: string, fileSize: nat, maxFileSize: int, allowed: seq<string>)
    : (r: Result<string, HttpError>)
    ensures fileSize > maxFileSize ==> r.Err? && r.error.status == PayloadTooLarge
    ensures fileSize <= maxFileSize && FileExtension(filename) !in allowed ==> r.Err? && r.error.status == BadRequest
    ensures r.Ok? <==> fileSize <= maxFileSize && FileExtension(filename) in allowed
    ensures r.Ok? ==> r.value == FileExtension(filename)
  {
    if fileSize > maxFileSize then
      Err(HttpError(PayloadTooLarge, "文件大小超过限制 (" + Config.Decimal(maxFileSize / MiB) + "MB)"))
    else
      var ext := FileExtension(filename);
      if ext !in allowed then
        Err(HttpError(BadRequest, "不支持的文件类型。支持的类型: " + JoinWithComma(allowed)))
      else Ok(ext)
  }

  /** With the default settings a file of exactly 100 MiB passes the size check and one byte more does not. */
  lemma DefaultSizeBoundary(filename: string)
    requires FileExtension(filename) in Config.DefaultAllowedFileTypes
    ensures ValidateUpload(filename, Config.DefaultMaxFileSize, Config.DefaultMaxFileSize, Config.DefaultAllowedFileTypes).Ok?
    ensures ValidateUpload(filename, Config.DefaultMaxFileSize + 1, Config.DefaultMaxFileSize,
                           Config.DefaultAllowedFileTypes).error.status == PayloadTooLarge
  {
  }

  /** `f"{prefix}_{filename}"`: the name the upload is stored under. */
  function StoredName(prefix: string, filename: string): (name: string)
    ensures |name| == |prefix| + 1 + |filename|
  {
    prefix + "_" + filename
  }

  /**
   * With prefixes free of '_' (a hex uuid), the stored name gives back both
   * its prefix and the original name, so distinct prefixes or distinct
   * names never share a stored name.
   */
  lemma StoredNameDecodes(p1: string, f1: string, p2: string, f2: string)
    requires '_' !in p1 && '_' !in p2
    ensures StoredName(p1, f1) == StoredName(p2, f2) <==> p1 == p2 && f1 == f2
  {
    var s1, s2 := StoredName(p1, f1), StoredName(p2, f2);
    assert s1[|p1|] == '_' && s2[|p2|] == '_';
    assert forall i :: 0 <= i < |p1| ==> s1[i] == p1[i] && p1[i] in p1;
    assert forall i :: 0 <= i < |p2| ==> s2[i] == p2[i] && p2[i] in p2;
    if s1 == s2 && |p1| == |p2| {
      assert p1 == s1[..|p1|] && p2 == s2[..|p2|];
      assert f1 == s1[|p1| + 1..] && f2 == s2[|p2| + 1..];
    }
  }

  /** `os.path.join(directory, name)` for a relative `name`. */
  function PathJoin(directory: string, name: string): (path: string)
    ensures IsPrefix(directory, path) && |name| <= |path| && path[|path| - |name|..] == name
    ensures |path| == |directory| + |name| || (|path| == |directory| + |name| + 1 && path[|directory|] == '/')
    ensures directory != [] ==> '/' in path[|directory| - 1..|path| - |name|]
  {
    if directory == [] || directory[|directory| - 1] == '/' then directory + name else directory + "/" + name
  }

  /** A `files` row. */
  datatype FileRecord = FileRecord(filename: string, originalName: string, filePath: string, fileSize: nat,
                                   fileType: string, mimeType: Option<string>, userId: nat, isPublic: bool,
                                   downloadCount: nat)

  /** The row `upload_file` adds; it starts private and never downloaded. */
  function NewRecord(prefix: string, filename: string, fileSize: nat, ext: string, mimeType: Option<string>,
                     userId: nat, uploadDir: string): (f: FileRecord)
    ensures !f.isPublic && f.downloadCount == 0
    ensures f.filename == StoredName(prefix, filename) && f.originalName == filename
  {
    var stored := StoredName(prefix, filename);
    FileRecord(stored, filename, PathJoin(uploadDir, stored), fileSize, ext, mimeType, userId, false, 0)
  }

  /** The file `fileId` exists and belongs to `userId`. */
  predicate Owned(files: map<nat, FileRecord>, fileId: nat, userId: nat) {
    fileId in files && files[fileId].userId == userId
  }

  /** `get_public_file` serves the file: it exists, is shared, and is on disk. */
  predicate PubliclyServed(files: map<nat, FileRecord>, fileId: nat, disk: set<string>) {
    fileId in files && files[fileId].isPublic && files[fileId].filePath in disk
  }

  /** Once shared, a file is served publicly exactly while it is on disk, and sharing touches no other file. */
  lemma SharingPublishes(files: map<nat, FileRecord>, fileId: nat, disk: set<string>, other: nat)
    requires fileId in files
    ensures var shared := files[fileId := files[fileId].(isPublic := true)];
            (PubliclyServed(shared, fileId, disk) <==> files[fileId].filePath in disk) &&
            (other != fileId ==> (PubliclyServed(shared, other, disk) <==> PubliclyServed(files, other, disk)))
  {
  }

  /** The `files` table; ids are handed out in increasing order. */
  class FileTable {
    var files: map<nat, FileRecord>
    var nextId: nat

    /** Every id in use is below the next one to hand out. */
    predicate Valid()
      reads this
    {
      forall id :: id in files ==> id < nextId
    }

    constructor()
      ensures files == map[] && Valid()
    {
      files := map[];
      nextId := 1;
    }

    /** `upload_file`: validates, then records the file under a fresh id. */
    method Upload(filename: string, fileSize: nat, mimeType: Option<string>, userId: nat, prefix: string,
                  uploadDir: string, maxFileSize: int, allowed: seq<string>) returns (r: Result<nat, HttpError>)
      requires Valid()
      modifies this
      ensures Valid()
      ensures var v := ValidateUpload(filename, fileSize, maxFileSize, allowed);
              (v.Err? ==> r == Err(v.error) && files == old(files) && nextId == old(nextId)) &&
              (v.Ok? ==> r == Ok(old(nextId)) && old(nextId) !in old(files) && nextId == old(nextId) + 1 &&
                         files == old(files)[old(nextId) := NewRecord(prefix, filename, fileSize, v.value, mimeType,
                                                                       userId, uploadDir)])
    {
      var v := ValidateUpload(filename, fileSize, maxFileSize, allowed);
      if v.Err? {
        return Err(v.error);
      }
      var id := nextId;
      files := files[id := NewRecord(prefix, filename, fileSize, v.value, mimeType, userId, uploadDir)];
      nextId := nextId + 1;
      r := Ok(id);
    }

    /**
     * `download_file`: 404 unless the file is the user's, 404 unless it is on
     * disk, and only then one more download is counted.
     */
    method Download(fileId: nat, userId: nat, disk: set<string>) returns (r: Result<FileRecord, HttpError>)
      requires Valid()
      modifies this
      ensures Valid() && nextId == old(nextId)
      ensures !Owned(old(files), fileId, userId) ==> r.Err? && r.error.status == NotFound && files == old(files)
      ensures Owned(old(files), fileId, userId) && old(files)[fileId].filePath !in disk ==>
                r.Err? && r.error.status == NotFound && files == old(files)
      ensures Owned(old(files), fileId, userId) && old(files)[fileId].filePath in disk ==>
                var f := old(files)[fileId];
                r == Ok(f.(downloadCount := f.downloadCount + 1)) &&
                files == old(files)[fileId := f.(downloadCount := f.downloadCount + 1)]
    {
      if !Owned(files, fileId, userId) {
        return Err(HttpError(NotFound, "文件不存在"));
      }
      var f := files[fileId];
      if f.filePath !in disk {
        return Err(HttpError(NotFound, "文件不存在或已被删除"));
      }
      f := f.(downloadCount := f.downloadCount + 1);
      files := files[fileId := f];
      r := Ok(f);
    }

    /** `share_file`: 404 unless the file is the user's; otherwise it becomes public. */
    method Share(fileId: nat, userId: nat) returns (r: Result<(), HttpError>)
      requires Valid()
      modifies this
      ensures Valid() && nextId == old(nextId)
      ensures !Owned(old(files), fileId, userId) ==> r.Err? && r.error.status == NotFound && files == old(files)
      ensures Owned(old(files), fileId, userId) ==>
                r.Ok? && files == old(files)[fileId := old(files)[fileId].(isPublic := true)]
    {
      if !Owned(files, fileId, userId) {
        return Err(HttpError(NotFound, "文件不存在"));
      }
      files := files[fileId := files[fileId].(isPublic := true)];
      r := Ok(());
    }

    /** `get_public_file`: the record of a shared file that is on disk, 404 otherwise. */
    method GetPublicFile(fileId: nat, disk: set<string>) returns (r: Result<FileRecord, HttpError>)
      ensures r.Ok? <==> PubliclyServed(files, fileId, disk)
      ensures r.Ok? ==> r.value == files[fileId]
      ensures r.Err? ==> r.error.status == NotFound
    {
      if fileId !in files || !files[fileId].isPublic {
        return Err(HttpError(NotFound, "文件不存在或未公开分享"));
      }
      if files[fileId].filePath !in disk {
        return Err(HttpError(NotFound, "文件不存在或已被删除"));
      }
      r := Ok(files[fileId]);
    }
  }
}
