# crowd_cli request builder, modelled in Dafny

`crowd_cli.py` is a command-line client. It turns a folder of `.jpg` example
images into one task for a crowd-processing service. Each image is uploaded
to an S3 bucket and replaced by a pre-signed URL that is valid for one year.
A process-wide dictionary `cache` maps local paths to URLs, so an image that
was uploaded before is not uploaded again.

- `fields_from_dir` turns the listing of one folder into one
  `{field_name, url}` record per `.jpg` file.
- `main` builds one document per subdirectory of the given folder. When
  there are no subdirectories, it builds a single document for the folder
  itself. It then wraps the documents in a request with a fresh uuid and the
  `force` flag.

This project models that core:

- `filesystem.dfy` (module `FileSystems`) holds the filesystem as a value: a
  listing per directory plus the set of regular files. It models
  `exists`, `is_dir` and `iterdir` with their two exceptions.
- `naming.dfy` (module `Naming`) holds the `.jpg` suffix test,
  `name.split('.')[0]` and `Path.name`.
- `fields.dfy` (module `FieldSpec`) describes, as functions of a listing and
  the cache, what `fields_from_dir` produces and which paths it uploads.
- `object_store.dfy` (module `ObjectStores`) models the bucket as an object
  that records every upload: local path, key, lifetime and returned URL.
- `crowd_cli.dfy` (module `CrowdCli`) defines the class `Client`. It holds
  the mutable `cache`, a counter for the uuids handed out and the bucket. Its
  methods `FieldsFromDir`, `DocumentsOfSubDirs`, `CollectDocuments` and
  `BuildRequest` follow the loops of the source. Each is proved against the
  specification predicates `CachedRun`, `DocsBuilt` and `RequestBuilt`.
  Lemmas then prove what the source promises about those predicates.

The main results:

- The filter keeps exactly the entries whose name ends in `.jpg`. It is
  case-sensitive and keeps listing order.
- A field is named after the part of the file name before its first dot.
- A cached path is not uploaded; it gets its cached URL.
- An uncached path is uploaded exactly once. The URL put in its field is the
  URL that upload returned, and the same URL is written to the cache.
- The cache only grows and never overwrites an entry.
- Running the loop a second time over the same folder uploads nothing,
  leaves the cache as it was and gives the same fields. It still draws one
  more uuid per image, as the source does.
- Building the whole request a second time from an unchanged filesystem
  uploads nothing, leaves the cache as it was and emits the same documents
  with the same URLs.
- Each subdirectory gives one document, in listing order. The document's
  `url` is the subdirectory's path, its `type` is the requested type and its
  fields are the subdirectory's own fields.
- A folder without subdirectories gives a single document for itself.
- The `force` flag is passed through unchanged.
- A missing folder raises `FileNotFoundError` before anything is uploaded,
  and a regular file raises `NotADirectoryError`.

## Model

| member | source | states |
|---|---|---|
| `Naming.EndsWith` | crowd_cli.py:79 | `str.endswith`: the last characters of the name equal the suffix, compared exactly |
| `Naming.IsJpg` | crowd_cli.py:79 | the entry filter `file.name.endswith('.jpg')` |
| `Naming.IsJpgMeansSuffix` | crowd_cli.py:79 | a name passes the filter if and only if it is some stem followed by `.jpg` |
| `FileSystems.Exists` | crowd_cli.py:104 | `p.exists()`: the path is a directory or a regular file |
| `FileSystems.IsDir` | crowd_cli.py:110 | `doc.is_dir()`: the path is a directory |
| `FileSystems.IterDir` | crowd_cli.py:78 | `iterdir()` succeeds exactly on a directory and yields its listing; a missing path raises `FileNotFoundError` and a regular file `NotADirectoryError` |
| `Naming.FieldName` | crowd_cli.py:92 | the field name is a prefix of the file name with no dot in it, and it stops at a dot or at the end of the name (`split('.')[0]`) |
| `Naming.FieldNameIsUnique` | crowd_cli.py:92 | those three facts single out the field name: any dot-free prefix that stops at a dot or at the end is `FieldName` |
| `Naming.FieldNameStopsAtFirstDot` | crowd_cli.py:92 | only the first dot counts: the field name of `stem.rest` is `stem` for any dot-free `stem`, even when `rest` holds further dots |
| `Naming.JpgFilterExamples` | crowd_cli.py:79 | the suffix test accepts `x.jpg` and `a.b.jpg` and rejects `x.JPG`, `x.jpeg` and `x.jpg.txt`: it is case-sensitive and looks only at the end |
| `Naming.BaseName` | crowd_cli.py:80 | `p.name`, the prefix of the upload key: a suffix of the path with no `/` in it, preceded by a `/` unless it is the whole path |
| `FieldSpec.Jpgs` | crowd_cli.py:78-79 | the `.jpg` filter over a listing: the entries whose names end in `.jpg`, in listing order, never more than the listing holds |
| `FieldSpec.JpgPaths` | crowd_cli.py:79-81 | the cache keys a run looks up: the paths of the `.jpg` entries |
| `FieldSpec.JpgPathsArePathsOfJpgs` | crowd_cli.py:78-81 | the looked-up keys are exactly the paths of the entries the filter keeps: `JpgPaths` is `Jpgs` seen as a set of paths |
| `FieldSpec.Fields` | crowd_cli.py:78-94 | the fields of a listing under a cache: as many fields as `.jpg` entries (`FieldsMatchJpgs` gives each field) |
| `FieldSpec.ToUpload` | crowd_cli.py:81-90 | the paths a run uploads: at most one per image, and none that the cache held when the run began |
| `FieldSpec.JpgsMembers` | crowd_cli.py:78-79 | an entry is processed if and only if it is in the listing and its name ends in `.jpg` |
| `FieldSpec.JpgsAppend` | crowd_cli.py:78-79 | filtering keeps listing order: the images of a concatenation are those of each part, in order |
| `FieldSpec.JpgPathsMembers` | crowd_cli.py:79-81 | the paths the loop looks up in the cache are exactly the paths of the `.jpg` entries |
| `FieldSpec.JpgPathsAppend` | crowd_cli.py:78-81 | the image paths of a concatenation are the union of each part's image paths |
| `FieldSpec.FieldsMatchJpgs` | crowd_cli.py:78-94 | one field per `.jpg` entry, in order: the k-th field has the k-th image's field name and the cached URL of its path |
| `FieldSpec.FieldsStable` | crowd_cli.py:81-82 | a cache that only grew without overwriting gives the same fields |
| `FieldSpec.ToUploadMembers` | crowd_cli.py:81-90 | a path is uploaded if and only if it is an image path that the cache did not hold when the run began |
| `FieldSpec.ToUploadDistinct` | crowd_cli.py:81-90 | no path is uploaded twice in one run, because the first upload caches the path |
| `FieldSpec.ToUploadAppend` | crowd_cli.py:78-90 | a run over `a + b` uploads what a run over `a` uploads, then what a run over `b` uploads once `a`'s images are cached |
| `FieldSpec.ToUploadSnoc` | crowd_cli.py:83-84 | an image whose path is neither cached nor met earlier in the run is uploaded next |
| `FieldSpec.ToUploadNoneWhenCached` | crowd_cli.py:81-82 | when every image path is already cached, the run uploads nothing |
| `ObjectStores.LocalPaths` | crowd_cli.py:84 | the local paths of a run of uploads, one per upload, in order |
| `ObjectStores.LocalPathsAppend` | crowd_cli.py:84 | the uploaded paths of two runs are those of the first run followed by those of the second |
| `ObjectStores.ObjectStore.UploadAndPresign` | crowd_cli.py:84-89 | one upload is recorded, with the given local path, the given key and a lifetime of one year, and the URL it returns |
| `CrowdCli.KeysUnder` | crowd_cli.py:80 | every upload added since a given point is keyed under a given prefix (the folder name and `/`) |
| `CrowdCli.CachedRun` | crowd_cli.py:78-94 | the effect of the cache-or-upload loop over a listing: the cache gains exactly the image paths and keeps every old entry; the uploads added are exactly `ToUpload`, in order, each for one year, with its URL cached |
| `CrowdCli.RunSkip` | crowd_cli.py:79 | an entry whose name does not end in `.jpg` changes neither the cache, nor the uploads, nor the fields |
| `CrowdCli.RunHit` | crowd_cli.py:81-82 | a `.jpg` whose path is cached adds a field with the cached URL, uploads nothing and leaves the cache as it was |
| `CrowdCli.RunMiss` | crowd_cli.py:83-94 | a `.jpg` whose path is not cached is uploaded once, and its URL is both cached and put in its field |
| `CrowdCli.MissGrowsCache` | crowd_cli.py:90 | caching a new path keeps every old entry and adds exactly that path |
| `CrowdCli.MissRecordsUpload` | crowd_cli.py:84-90 | after an upload, the uploads of the run are still exactly the uncached image paths, and the cache holds each upload's URL |
| `CrowdCli.LoopSkip` | crowd_cli.py:78-79 | one turn of the loop over a non-image entry changes nothing |
| `CrowdCli.LoopJpg` | crowd_cli.py:78-94 | one turn of the loop over an image extends the run by one entry, adds one field with the URL of that step, and keeps every upload key under the folder's prefix |
| `CrowdCli.CacheGrewCompose` | crowd_cli.py:81-90 | two cache-growing runs one after the other grow the cache by the image paths of both listings |
| `CrowdCli.UploadsRecordedCompose` | crowd_cli.py:84-90 | the uploads of two runs one after the other are those of one run over both listings |
| `CrowdCli.UploadPathsCompose` | crowd_cli.py:84 | the uploaded paths of two runs in turn are the paths one run over both listings uploads |
| `CrowdCli.UploadUrlsCompose` | crowd_cli.py:90 | after two runs, the cache still holds the URL of every upload of either run |
| `CrowdCli.CachedRunCompose` | crowd_cli.py:109-117 | two calls of fields_from_dir in turn have the effect of one run over both listings, as main's loop makes them |
| `CrowdCli.UploadsAreDistinct` | crowd_cli.py:81-90 | a run never uploads the same local path twice |
| `CrowdCli.FieldUrlSource` | crowd_cli.py:81-94 | the k-th field is named after the k-th image. Its URL is the cached one if the path was cached before the run. Otherwise the path was uploaded exactly once in the run, and the field carries that upload's URL |
| `CrowdCli.SecondRunIsIdempotent` | crowd_cli.py:78-95 | a second run over the same listing uploads nothing, leaves the cache unchanged and yields the same fields |
| `CrowdCli.SubDirs` | crowd_cli.py:109-110 | every entry main keeps is a directory |
| `CrowdCli.Listed` | crowd_cli.py:109-115 | the entries main hands to fields_from_dir when there are subdirectories: each subdirectory's listing, in order |
| `CrowdCli.Docs` | crowd_cli.py:111-115 | the `documents` list main's loop appends to: one `{url, type, fields}` per subdirectory, in order |
| `CrowdCli.DocsBuilt` | crowd_cli.py:108-115 | the state after main's loop over some subdirectories: their listings went through the cache-or-upload loop in turn, each upload is of an image of one of them and keyed `<its name>/...`, and the documents are `Docs` of them under the current cache |
| `CrowdCli.KeysPerFolder` | crowd_cli.py:80-84 | every upload recorded during main's loop stores an image of one of the subdirectories processed so far, under a key starting with that subdirectory's name and `/` |
| `CrowdCli.KeysPerFolderStep` | crowd_cli.py:109-115 | after fields_from_dir on one more subdirectory `d`, whose uploads are keyed under `d.name/`, every upload still belongs to an image of some processed subdirectory and is keyed under that subdirectory's name |
| `CrowdCli.Processed` | crowd_cli.py:109-117 | the entries whose images main processes: the subdirectories' listings when there are any, so top-level images are then skipped, else the folder's own listing |
| `CrowdCli.SubDirsMembers` | crowd_cli.py:109-110 | an entry becomes a document if and only if it is a directory of the listing |
| `CrowdCli.SubDirsAppend` | crowd_cli.py:109-110 | subdirectories keep listing order |
| `CrowdCli.DocsMatchSubDirs` | crowd_cli.py:109-115 | one document per subdirectory, in order: the k-th has the k-th subdirectory's path as `url`, the requested type and that subdirectory's fields |
| `CrowdCli.DocsStable` | crowd_cli.py:111-115 | documents already built stay the same while later folders grow the cache |
| `CrowdCli.DocsBuiltStep` | crowd_cli.py:110-115 | processing one more subdirectory appends its document, extends the run by its listing and keeps every upload keyed under its own subdirectory's name |
| `CrowdCli.DocsLoopDir` | crowd_cli.py:109-115 | one turn of main's loop over a directory appends that directory's document |
| `CrowdCli.DocsLoopFile` | crowd_cli.py:109-110 | one turn of main's loop over a non-directory adds no document |
| `CrowdCli.RequestBuilt` | crowd_cli.py:106-122 | what a successful main has built: the processed images went through the cache-or-upload loop; with subdirectories one document per subdirectory and a printed count of 0, otherwise the folder as the only document and the count of its images; upload keys start with `<doc.name>/` for each subdirectory's images (line 80 with `p = doc`), or with `<p.name>/` in the folder branch |
| `CrowdCli.SubDirsBranch` | crowd_cli.py:108-116 | when there are subdirectories, the documents are theirs and the printed field count is 0 |
| `CrowdCli.EmptyRunUploadsNothing` | crowd_cli.py:109-110 | main's loop over a listing with no subdirectory records no upload |
| `CrowdCli.FolderBranch` | crowd_cli.py:116-122 | without subdirectories, the folder itself becomes the only document, the printed field count is the number of its images, and every upload is keyed under the folder's name |
| `CrowdCli.Client.NextUuid` | crowd_cli.py:80 | each uuid drawn advances the count of identifiers handed out by one |
| `CrowdCli.Client.GetOrUpload` | crowd_cli.py:81-90 | a cached path returns its cached URL and nothing changes; an uncached path is uploaded once under the key, and the cache maps it to the returned URL |
| `CrowdCli.Client.FieldsFromDir` | crowd_cli.py:75-95 | a non-directory raises before any change; otherwise the cache and uploads grow as `CachedRun` says, the result is the fields of the listing, one uuid is drawn per image, and every upload key starts with `<folder name>/` |
| `CrowdCli.Client.DocumentsOfSubDirs` | crowd_cli.py:108-115 | main's loop leaves one document per subdirectory, built by fields_from_dir over every subdirectory's listing in turn; each upload is of an image of one subdirectory and keyed under that subdirectory's name |
| `CrowdCli.Client.CollectDocuments` | crowd_cli.py:106-122 | the documents, field count and upload keys of main follow `RequestBuilt`: the subdirectory branch, or else the folder itself |
| `CrowdCli.Client.BuildRequest` | crowd_cli.py:103-127 | a missing path raises `FileNotFoundError` and a regular file `NotADirectoryError`, both before anything changes; otherwise the request carries the documents `RequestBuilt` describes (with its upload keys) and `force` unchanged, and one more identifier is drawn for the request |
| `CrowdCli.Client.FieldsFromDirTwice` | crowd_cli.py:75-95 | calling fields_from_dir twice on a folder returns equal results and leaves the cache and the uploads as one call does; it draws one uuid per image in each call |
| `CrowdCli.Client.BuildRequestTwice` | crowd_cli.py:103-127 | building the request twice from an unchanged filesystem: the second run uploads nothing and leaves the cache as the first left it, and both requests carry the same documents, URLs, `force` flag and field count |

## Left out

- Loading `cache.json` at start-up and saving it when the program exits are
  not modelled. The cache is a field of `Client`, given to its constructor.
- The `.secret` configuration file, the boto3 sessions and the bucket name
  are left out. The bucket is an `ObjectStore` that records uploads.
- `send_and_wait` is left out: publishing over AMQP and waiting for the
  result are network I/O. `BuildRequest` stops at the request that would be
  sent and returns the field count that `main` prints afterwards.
- JSON serialisation, `print`, `pprint`, `tqdm`, the `click` option parsing
  and its defaults, and the timing with `datetime` are left out.
- `ObjectStores.ObjectStore.UploadAndPresign`: the text of a pre-signed URL
  is not specified. The body returns a stand-in, and callers rely only on
  the recorded upload.
- `CrowdCli.Client.NextUuid`: the text of `uuid.uuid1()` and its global
  uniqueness are not modelled. Only the number of identifiers drawn is
  counted, one per image (also for cached ones) and one per request.
- `Naming.BaseName` does not normalise its argument the way pathlib does.
  `main`'s folder argument `dir` is used as given. So `BaseName(".")` is
  `"."` where `Path(".").name` is `""`, and `BaseName("a/b/")` is `""` where
  `Path("a/b/").name` is `"b"`. Likewise, the folder branch's document `url`
  is `dir` as given, where the source uses the normalised `str(p)`: `"a/b/"`
  there becomes `"a/b"`. The model agrees with the source only for
  arguments that are already normalised.
- `CrowdCli.Client.BuildRequest`: the request's `uuid` is not constrained.
  Only the drawing of one more identifier is stated.
- Paths are plain strings. `str(doc)`, `str(file)` and `Path.name` are taken
  as given in each `Entry`, with no pathlib normalisation. Only `BaseName`
  computes a name, for the folder passed by `main` itself.
- `is_dir` is membership in the directory map. Symbolic links,
  permissions and OS errors other than `FileNotFoundError` and
  `NotADirectoryError` are not modelled, and neither is a filesystem that
  changes while the program runs.
- Exceptions raised part-way through a run (a failing upload) and the
  `finally: save()` that would persist a partly updated cache are not
  modelled.
