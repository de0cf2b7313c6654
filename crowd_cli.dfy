/** The request builder of the crowd command-line client: it turns a directory
    tree into the documents of one request, uploading each image that the
    path-to-URL cache does not know yet and reusing the cached URL otherwise.

    The process-wide cache dictionary and the uuid source are the fields of
    a Client object; the bucket is an ObjectStore that records its uploads. */
module CrowdCli {
  import opened FileSystems
  import opened Naming
  import opened FieldSpec
  import opened ObjectStores

  /** `{url, type, fields}`: one folder of images to process. */
  datatype Document = Document(url: string, docType: string, fields: seq<Field>)

  /** `{uuid, force, documents}`: the request published to the queue. */
  datatype Request = Request(uuid: string, force: bool, documents: seq<Document>)

  /** What main has built once the request is ready to send: the request and
      the field count it prints after the reply has arrived. */
  datatype Submission = Submission(request: Request, fieldsCount: nat)

  // ---------------------------------------------------------------------
  // Specification of a run of the cache-or-upload loop

  /** Processing the listing `es` took the cache from `c0` to `c1`: every
      image path of `es` is now a key, and no entry that was already cached
      was removed or overwritten. */
  ghost predicate CacheGrew(c0: map<string, string>, c1: map<string, string>, es: seq<Entry>) {
    c1.Keys == c0.Keys + JpgPaths(es) && Extends(c0, c1)
  }

  /** The uploads `u1` adds to `u0` are for exactly the paths
      ToUpload(es, c0.Keys), in that order. */
  ghost predicate UploadPaths(c0: map<string, string>, u0: seq<Upload>, u1: seq<Upload>, es: seq<Entry>) {
    |u0| <= |u1| && u1[..|u0|] == u0 && LocalPaths(u1[|u0|..]) == ToUpload(es, c0.Keys)
  }

  /** Each upload `u1` adds to `u0` is valid for one year, and the cache `c1`
      holds for its path the URL it returned. */
  ghost predicate UploadUrls(c1: map<string, string>, u0: seq<Upload>, u1: seq<Upload>) {
    forall j :: |u0| <= j < |u1| ==>
      u1[j].localPath in c1 && c1[u1[j].localPath] == u1[j].url && u1[j].expiresIn == OneYear
  }

  /** Both of the above: what the run over `es` uploaded and what it cached. */
  ghost predicate UploadsRecorded(c0: map<string, string>, c1: map<string, string>,
                                  u0: seq<Upload>, u1: seq<Upload>, es: seq<Entry>)
  {
    UploadPaths(c0, u0, u1, es) && UploadUrls(c1, u0, u1)
  }

  /** Every upload `u1` adds to `u0` is stored under a key starting with `prefix`. */
  ghost predicate KeysUnder(u0: seq<Upload>, u1: seq<Upload>, prefix: string) {
    forall j :: |u0| <= j < |u1| ==> prefix <= u1[j].key
  }

  /** The effect of running the cache-or-upload loop over `es`, from cache
      `c0` and upload record `u0` to `c1` and `u1`. */
  ghost predicate CachedRun(c0: map<string, string>, c1: map<string, string>,
                            u0: seq<Upload>, u1: seq<Upload>, es: seq<Entry>)
  {
    CacheGrew(c0, c1, es) && UploadsRecorded(c0, c1, u0, u1, es)
  }

  /** A non-image entry changes nothing. */
  lemma RunSkip(c0: map<string, string>, c1: map<string, string>,
                u0: seq<Upload>, u1: seq<Upload>, es: seq<Entry>, e: Entry)
    requires CachedRun(c0, c1, u0, u1, es)
    requires !IsJpg(e.name)
    ensures CachedRun(c0, c1, u0, u1, es + [e])
    ensures Jpgs(es + [e]) == Jpgs(es) && Fields(es + [e], c1) == Fields(es, c1)
  {
    var es' := es + [e];
    assert es'[..|es'| - 1] == es && es'[|es'| - 1] == e;
    assert JpgPaths(es') == JpgPaths(es);
    assert ToUpload(es', c0.Keys) == ToUpload(es, c0.Keys);
  }

  /** An image whose path is cached adds its cached URL and uploads nothing. */
  lemma RunHit(c0: map<string, string>, c1: map<string, string>,
               u0: seq<Upload>, u1: seq<Upload>, es: seq<Entry>, e: Entry)
    requires CachedRun(c0, c1, u0, u1, es)
    requires IsJpg(e.name) && e.path in c1
    ensures CachedRun(c0, c1, u0, u1, es + [e])
    ensures Jpgs(es + [e]) == Jpgs(es) + [e]
    ensures Fields(es + [e], c1) == Fields(es, c1) + [Field(FieldName(e.name), c1[e.path])]
  {
    assert (es + [e])[..|es|] == es;
  }

  /** An image whose path is not cached is uploaded once, and its URL is both
      cached and put in the field. */
  lemma RunMiss(c0: map<string, string>, c1: map<string, string>,
                u0: seq<Upload>, u1: seq<Upload>, es: seq<Entry>, e: Entry, key: string, url: string)
    requires CachedRun(c0, c1, u0, u1, es)
    requires IsJpg(e.name) && e.path !in c1
    ensures CachedRun(c0, c1[e.path := url], u0, u1 + [Upload(e.path, key, OneYear, url)], es + [e])
    ensures Jpgs(es + [e]) == Jpgs(es) + [e]
    ensures Fields(es + [e], c1[e.path := url]) == Fields(es, c1) + [Field(FieldName(e.name), url)]
  {
    var c2 := c1[e.path := url];
    assert (es + [e])[..|es|] == es;
    FieldsStable(es, c1, c2);
    MissGrowsCache(c0, c1, es, e, url);
    MissRecordsUpload(c0, c1, u0, u1, es, e, key, url);
  }

  lemma MissGrowsCache(c0: map<string, string>, c1: map<string, string>, es: seq<Entry>, e: Entry, url: string)
    requires CacheGrew(c0, c1, es)
    requires IsJpg(e.name) && e.path !in c1
    ensures CacheGrew(c0, c1[e.path := url], es + [e])
  {
    assert (es + [e])[..|es|] == es;
    assert JpgPaths(es + [e]) == JpgPaths(es) + {e.path};
  }

  lemma MissRecordsUpload(c0: map<string, string>, c1: map<string, string>,
                          u0: seq<Upload>, u1: seq<Upload>, es: seq<Entry>, e: Entry, key: string, url: string)
    requires CacheGrew(c0, c1, es) && UploadsRecorded(c0, c1, u0, u1, es)
    requires IsJpg(e.name) && e.path !in c1
    ensures UploadsRecorded(c0, c1[e.path := url], u0, u1 + [Upload(e.path, key, OneYear, url)], es + [e])
  {
    MissUploadPaths(c0, u0, u1, es, e, Upload(e.path, key, OneYear, url));
    MissUploadUrls(c1, u0, u1, e.path, Upload(e.path, key, OneYear, url));
  }

  lemma MissUploadPaths(c0: map<string, string>, u0: seq<Upload>, u1: seq<Upload>,
                        es: seq<Entry>, e: Entry, up: Upload)
    requires UploadPaths(c0, u0, u1, es)
    requires IsJpg(e.name) && e.path !in c0.Keys + JpgPaths(es) && up.localPath == e.path
    ensures UploadPaths(c0, u0, u1 + [up], es + [e])
  {
    ToUploadSnoc(es, e, c0.Keys);
    AppendAfterPrefix(u0, u1, up);
    LocalPathsSnoc(u1[|u0|..], up);
  }

  lemma MissUploadUrls(c1: map<string, string>, u0: seq<Upload>, u1: seq<Upload>, path: string, up: Upload)
    requires UploadUrls(c1, u0, u1)
    requires path !in c1 && up.localPath == path && up.expiresIn == OneYear
    ensures UploadUrls(c1[path := up.url], u0, u1 + [up])
  {
    var c2, u2 := c1[path := up.url], u1 + [up];
    forall j | |u0| <= j < |u2|
      ensures u2[j].localPath in c2 && c2[u2[j].localPath] == u2[j].url && u2[j].expiresIn == OneYear
    {
      if j < |u1| {
        assert u2[j] == u1[j] && u1[j].localPath != path;
      }
    }
  }

  /** One turn of the loop of fields_from_dir over the entry `es[i]`, when
      its name does not end in `.jpg`: nothing changes. */
  lemma LoopSkip(c0: map<string, string>, c1: map<string, string>,
                 u0: seq<Upload>, u1: seq<Upload>, es: seq<Entry>, i: nat)
    requires i < |es| && !IsJpg(es[i].name)
    requires CachedRun(c0, c1, u0, u1, es[..i])
    ensures CachedRun(c0, c1, u0, u1, es[..i + 1])
    ensures Jpgs(es[..i + 1]) == Jpgs(es[..i])
    ensures Fields(es[..i + 1], c1) == Fields(es[..i], c1)
  {
    assert es[..i + 1] == es[..i] + [es[i]];
    RunSkip(c0, c1, u0, u1, es[..i], es[i]);
  }

  /** One turn of the loop of fields_from_dir over the image `es[i]`, given
      what the cache-or-upload step did: `c2` and `u2` are the cache and the
      uploads after it, and `url` is the URL it produced. */
  lemma LoopJpg(c0: map<string, string>, c1: map<string, string>, c2: map<string, string>,
                u0: seq<Upload>, u1: seq<Upload>, u2: seq<Upload>,
                es: seq<Entry>, i: nat, prefix: string, key: string, url: string)
    requires i < |es| && IsJpg(es[i].name)
    requires CachedRun(c0, c1, u0, u1, es[..i])
    requires KeysUnder(u0, u1, prefix) && prefix <= key
    requires es[i].path in c1 ==> url == c1[es[i].path] && c2 == c1 && u2 == u1
    requires es[i].path !in c1 ==>
      c2 == c1[es[i].path := url] && u2 == u1 + [Upload(es[i].path, key, OneYear, url)]
    ensures CachedRun(c0, c2, u0, u2, es[..i + 1])
    ensures KeysUnder(u0, u2, prefix)
    ensures |Jpgs(es[..i + 1])| == |Jpgs(es[..i])| + 1
    ensures Fields(es[..i + 1], c2) == Fields(es[..i], c1) + [Field(FieldName(es[i].name), url)]
  {
    assert es[..i + 1] == es[..i] + [es[i]];
    if es[i].path in c1 {
      RunHit(c0, c1, u0, u1, es[..i], es[i]);
    } else {
      RunMiss(c0, c1, u0, u1, es[..i], es[i], key, url);
    }
  }

  lemma CacheGrewCompose(c0: map<string, string>, c1: map<string, string>, c2: map<string, string>,
                         a: seq<Entry>, b: seq<Entry>)
    requires CacheGrew(c0, c1, a) && CacheGrew(c1, c2, b)
    ensures CacheGrew(c0, c2, a + b)
  {
    JpgPathsAppend(a, b);
  }

  lemma UploadsRecordedCompose(c0: map<string, string>, c1: map<string, string>, c2: map<string, string>,
                               u0: seq<Upload>, u1: seq<Upload>, u2: seq<Upload>,
                               a: seq<Entry>, b: seq<Entry>)
    requires CacheGrew(c0, c1, a) && Extends(c1, c2)
    requires UploadsRecorded(c0, c1, u0, u1, a) && UploadsRecorded(c1, c2, u1, u2, b)
    ensures UploadsRecorded(c0, c2, u0, u2, a + b)
  {
    UploadPathsCompose(c0, c1, u0, u1, u2, a, b);
    UploadUrlsCompose(c1, c2, u0, u1, u2);
  }

  lemma UploadPathsCompose(c0: map<string, string>, c1: map<string, string>,
                           u0: seq<Upload>, u1: seq<Upload>, u2: seq<Upload>, a: seq<Entry>, b: seq<Entry>)
    requires c1.Keys == c0.Keys + JpgPaths(a)
    requires UploadPaths(c0, u0, u1, a) && UploadPaths(c1, u1, u2, b)
    ensures UploadPaths(c0, u0, u2, a + b)
  {
    ToUploadAppend(a, b, c0.Keys);
    PrefixOfPrefix(u0, u1, u2);
    LocalPathsAppend(u1[|u0|..], u2[|u1|..]);
  }

  lemma UploadUrlsCompose(c1: map<string, string>, c2: map<string, string>,
                          u0: seq<Upload>, u1: seq<Upload>, u2: seq<Upload>)
    requires Extends(c1, c2)
    requires |u0| <= |u1| <= |u2| && u2[..|u1|] == u1
    requires UploadUrls(c1, u0, u1) && UploadUrls(c2, u1, u2)
    ensures UploadUrls(c2, u0, u2)
  {
    forall j | |u0| <= j < |u2|
      ensures u2[j].localPath in c2 && c2[u2[j].localPath] == u2[j].url && u2[j].expiresIn == OneYear
    {
      if j < |u1| {
        assert u2[j] == u1[j];
      }
    }
  }

  /** Two runs one after the other amount to one run over both listings. */
  lemma CachedRunCompose(c0: map<string, string>, c1: map<string, string>, c2: map<string, string>,
                         u0: seq<Upload>, u1: seq<Upload>, u2: seq<Upload>,
                         a: seq<Entry>, b: seq<Entry>)
    requires CachedRun(c0, c1, u0, u1, a)
    requires CachedRun(c1, c2, u1, u2, b)
    ensures CachedRun(c0, c2, u0, u2, a + b)
  {
    CacheGrewCompose(c0, c1, c2, a, b);
    UploadsRecordedCompose(c0, c1, c2, u0, u1, u2, a, b);
  }

  /** Each path is uploaded at most once in a run. */
  lemma UploadsAreDistinct(c0: map<string, string>, c1: map<string, string>,
                           u0: seq<Upload>, u1: seq<Upload>, es: seq<Entry>)
    requires CachedRun(c0, c1, u0, u1, es)
    ensures forall i, j :: |u0| <= i < j < |u1| ==> u1[i].localPath != u1[j].localPath
  {
    ToUploadDistinct(es, c0.Keys);
    var paths := LocalPaths(u1[|u0|..]);
    forall i, j | |u0| <= i < j < |u1| ensures u1[i].localPath != u1[j].localPath {
      assert paths[i - |u0|] == u1[i].localPath && paths[j - |u0|] == u1[j].localPath;
    }
  }

  /** Where the URL of the k-th field comes from: for a path that was cached
      before the run it is the cached URL; otherwise the path was uploaded
      exactly once in the run, and the field carries that upload's URL. */
  lemma FieldUrlSource(c0: map<string, string>, c1: map<string, string>,
                       u0: seq<Upload>, u1: seq<Upload>, es: seq<Entry>, k: nat)
    requires CachedRun(c0, c1, u0, u1, es)
    requires k < |Jpgs(es)|
    ensures k < |Fields(es, c1)|
    ensures var e := Jpgs(es)[k];
      Fields(es, c1)[k].fieldName == FieldName(e.name) &&
      (e.path in c0 ==> Fields(es, c1)[k].url == c0[e.path]) &&
      (e.path !in c0 ==> exists j :: |u0| <= j < |u1| && u1[j].localPath == e.path && u1[j].url == Fields(es, c1)[k].url) &&
      (forall i, j :: |u0| <= i < j < |u1| ==> u1[i].localPath != e.path || u1[j].localPath != e.path)
  {
    FieldsMatchJpgs(es, c1);
    UploadsAreDistinct(c0, c1, u0, u1, es);
    var e := Jpgs(es)[k];
    if e.path !in c0 {
      JpgsMembers(es);
      assert e in Jpgs(es);
      JpgPathsMembers(es);
      assert e.path in JpgPaths(es);
      ToUploadMembers(es, c0.Keys);
      var paths := LocalPaths(u1[|u0|..]);
      assert e.path in paths;
      var i :| 0 <= i < |paths| && paths[i] == e.path;
      assert u1[|u0| + i].localPath == e.path;
    }
  }

  /** Running the loop a second time over the same listing uploads nothing,
      leaves the cache as it was and yields the same fields. */
  lemma SecondRunIsIdempotent(c0: map<string, string>, c1: map<string, string>, c2: map<string, string>,
                              u0: seq<Upload>, u1: seq<Upload>, u2: seq<Upload>, es: seq<Entry>)
    requires CachedRun(c0, c1, u0, u1, es)
    requires CachedRun(c1, c2, u1, u2, es)
    ensures u2 == u1
    ensures c2 == c1
    ensures Fields(es, c2) == Fields(es, c1)
  {
    ToUploadNoneWhenCached(es, c1.Keys);
    assert |u2[|u1|..]| == 0;
    assert u2 == u2[..|u1|];
    assert c2.Keys == c1.Keys;
  }

  // ---------------------------------------------------------------------
  // Specification of the documents main builds

  /** The immediate subdirectories of a listing, in listing order. */
  function SubDirs(fs: FileSystem, es: seq<Entry>): (r: seq<Entry>)
    ensures forall d :: d in r ==> IsDir(fs, d.path)
  {
    if es == [] then []
    else
      var init, e := es[..|es| - 1], es[|es| - 1];
      SubDirs(fs, init) + (if IsDir(fs, e.path) then [e] else [])
  }

  /** An entry is a document folder if and only if it is a directory. */
  lemma {:induction false} SubDirsMembers(fs: FileSystem, es: seq<Entry>)
    ensures forall d :: d in SubDirs(fs, es) <==> d in es && IsDir(fs, d.path)
  {
    if es != [] {
      var init := es[..|es| - 1];
      SubDirsMembers(fs, init);
      assert es == init + [es[|es| - 1]];
    }
  }

  /** Subdirectories keep listing order, one per directory entry. */
  lemma {:induction false} SubDirsAppend(fs: FileSystem, a: seq<Entry>, b: seq<Entry>)
    ensures SubDirs(fs, a + b) == SubDirs(fs, a) + SubDirs(fs, b)
  {
    if b == [] {
      assert a + b == a;
    } else {
      var init := b[..|b| - 1];
      assert (a + b)[..|a + b| - 1] == a + init;
      SubDirsAppend(fs, a, init);
    }
  }

  /** The listings of the given folders, one after the other: every entry
      the loop of main hands to fields_from_dir. */
  function Listed(fs: FileSystem, subs: seq<Entry>): (r: seq<Entry>)
    requires forall d :: d in subs ==> IsDir(fs, d.path)
  {
    if subs == [] then []
    else
      var init, d := subs[..|subs| - 1], subs[|subs| - 1];
      assert d in subs && forall x :: x in init ==> x in subs;
      assert IsDir(fs, d.path);
      Listed(fs, init) + fs.dirs[d.path]
  }

  /** Every image of every folder in `subs` has its URL in `m`. */
  ghost predicate Covered(fs: FileSystem, subs: seq<Entry>, m: map<string, string>) {
    forall d :: d in subs ==> IsDir(fs, d.path) && JpgPaths(fs.dirs[d.path]) <= m.Keys
  }

  /** One document per folder of `subs`, in order, with the folder's fields. */
  function Docs(fs: FileSystem, subs: seq<Entry>, docType: string, m: map<string, string>): (r: seq<Document>)
    requires Covered(fs, subs, m)
  {
    if subs == [] then []
    else
      var init, d := subs[..|subs| - 1], subs[|subs| - 1];
      assert forall x :: x in init ==> x in subs;
      Docs(fs, init, docType, m) + [Document(d.path, docType, Fields(fs.dirs[d.path], m))]
  }

  /** The k-th document is the k-th subdirectory: its path as `url`, the
      requested type, and the fields of its own listing. */
  lemma {:induction false} DocsMatchSubDirs(fs: FileSystem, subs: seq<Entry>, docType: string, m: map<string, string>)
    requires Covered(fs, subs, m)
    ensures |Docs(fs, subs, docType, m)| == |subs|
    ensures forall k :: 0 <= k < |subs| ==>
      Docs(fs, subs, docType, m)[k] == Document(subs[k].path, docType, Fields(fs.dirs[subs[k].path], m))
  {
    if subs != [] {
      var init := subs[..|subs| - 1];
      assert forall x :: x in init ==> x in subs;
      DocsMatchSubDirs(fs, init, docType, m);
    }
  }

  /** Growing the cache without overwriting leaves the documents unchanged. */
  lemma {:induction false} DocsStable(fs: FileSystem, subs: seq<Entry>, docType: string,
                                      m0: map<string, string>, m1: map<string, string>)
    requires Covered(fs, subs, m0)
    requires Extends(m0, m1)
    ensures Covered(fs, subs, m1)
    ensures Docs(fs, subs, docType, m1) == Docs(fs, subs, docType, m0)
  {
    if subs != [] {
      var init, d := subs[..|subs| - 1], subs[|subs| - 1];
      assert forall x :: x in init ==> x in subs;
      DocsStable(fs, init, docType, m0, m1);
      FieldsStable(fs.dirs[d.path], m0, m1);
    }
  }

  /** Every upload `u` adds to `u0` is of an image of some folder in `subs`,
      stored under a key that starts with that folder's name and `/`. */
  ghost predicate KeysPerFolder(fs: FileSystem, subs: seq<Entry>, u0: seq<Upload>, u: seq<Upload>) {
    forall j :: |u0| <= j < |u| ==>
      exists d :: d in subs && d.path in fs.dirs &&
        u[j].localPath in JpgPaths(fs.dirs[d.path]) && d.name + "/" <= u[j].key
  }

  /** fields_from_dir on one more folder `d`, whose uploads are keyed under
      `d.name/`, keeps every upload tied to its folder. */
  lemma KeysPerFolderStep(fs: FileSystem, subs: seq<Entry>, d: Entry,
                          c1: map<string, string>, u0: seq<Upload>, u1: seq<Upload>, u2: seq<Upload>)
    requires KeysPerFolder(fs, subs, u0, u1) && |u0| <= |u1|
    requires IsDir(fs, d.path)
    requires UploadPaths(c1, u1, u2, fs.dirs[d.path])
    requires KeysUnder(u1, u2, d.name + "/")
    ensures KeysPerFolder(fs, subs + [d], u0, u2)
  {
    var ls := fs.dirs[d.path];
    ToUploadMembers(ls, c1.Keys);
    forall j | |u0| <= j < |u2|
      ensures exists x ::
                x in subs + [d] && x.path in fs.dirs &&
                u2[j].localPath in JpgPaths(fs.dirs[x.path]) && x.name + "/" <= u2[j].key
    {
      if j < |u1| {
        assert u2[j] == u2[..|u1|][j] == u1[j];
        var x :| x in subs && x.path in fs.dirs &&
          u1[j].localPath in JpgPaths(fs.dirs[x.path]) && x.name + "/" <= u1[j].key;
        assert x in subs + [d];
      } else {
        assert LocalPaths(u2[|u1|..])[j - |u1|] == u2[j].localPath;
        assert u2[j].localPath in ToUpload(ls, c1.Keys);
        assert d in subs + [d];
      }
    }
  }

  /** The loop of main has turned the folders `subs` into `documents`,
      taking the cache from `c0` to `c` and the uploads from `u0` to `u`. */
  ghost predicate DocsBuilt(fs: FileSystem, subs: seq<Entry>, docType: string,
                            c0: map<string, string>, c: map<string, string>,
                            u0: seq<Upload>, u: seq<Upload>, documents: seq<Document>)
  {
    && (forall d :: d in subs ==> IsDir(fs, d.path))
    && CachedRun(c0, c, u0, u, Listed(fs, subs))
    && KeysPerFolder(fs, subs, u0, u)
    && Covered(fs, subs, c)
    && documents == Docs(fs, subs, docType, c)
  }

  /** One more folder, processed by fields_from_dir, adds its document. */
  lemma DocsBuiltStep(fs: FileSystem, subs: seq<Entry>, d: Entry, docType: string,
                      c0: map<string, string>, c1: map<string, string>, c2: map<string, string>,
                      u0: seq<Upload>, u1: seq<Upload>, u2: seq<Upload>, documents: seq<Document>)
    requires DocsBuilt(fs, subs, docType, c0, c1, u0, u1, documents)
    requires IsDir(fs, d.path)
    requires CachedRun(c1, c2, u1, u2, fs.dirs[d.path])
    requires KeysUnder(u1, u2, d.name + "/")
    ensures forall x :: x in subs + [d] ==> IsDir(fs, x.path)
    ensures Jpgs(Listed(fs, subs + [d])) == Jpgs(Listed(fs, subs)) + Jpgs(fs.dirs[d.path])
    ensures DocsBuilt(fs, subs + [d], docType, c0, c2, u0, u2,
                      documents + [Document(d.path, docType, Fields(fs.dirs[d.path], c2))])
  {
    assert (subs + [d])[..|subs|] == subs;
    assert Listed(fs, subs + [d]) == Listed(fs, subs) + fs.dirs[d.path];
    CachedRunCompose(c0, c1, c2, u0, u1, u2, Listed(fs, subs), fs.dirs[d.path]);
    DocsStable(fs, subs, docType, c1, c2);
    JpgsAppend(Listed(fs, subs), fs.dirs[d.path]);
    KeysPerFolderStep(fs, subs, d, c1, u0, u1, u2);
  }

  /** One turn of the loop of main over the directory `ls[i]`, once
      fields_from_dir has run on it from `c1`, `u1` to `c2`, `u2`. */
  lemma DocsLoopDir(fs: FileSystem, ls: seq<Entry>, i: nat, docType: string,
                    c0: map<string, string>, c1: map<string, string>, c2: map<string, string>,
                    u0: seq<Upload>, u1: seq<Upload>, u2: seq<Upload>,
                    documents: seq<Document>, fields: seq<Field>)
    requires i < |ls| && IsDir(fs, ls[i].path)
    requires DocsBuilt(fs, SubDirs(fs, ls[..i]), docType, c0, c1, u0, u1, documents)
    requires CachedRun(c1, c2, u1, u2, fs.dirs[ls[i].path])
    requires KeysUnder(u1, u2, ls[i].name + "/")
    requires fields == Fields(fs.dirs[ls[i].path], c2)
    ensures DocsBuilt(fs, SubDirs(fs, ls[..i + 1]), docType, c0, c2, u0, u2,
                      documents + [Document(ls[i].path, docType, fields)])
    ensures |Jpgs(Listed(fs, SubDirs(fs, ls[..i + 1])))|
         == |Jpgs(Listed(fs, SubDirs(fs, ls[..i])))| + |Jpgs(fs.dirs[ls[i].path])|
  {
    DocsLoopDirSubDirs(fs, ls, i);
    DocsBuiltStep(fs, SubDirs(fs, ls[..i]), ls[i], docType, c0, c1, c2, u0, u1, u2, documents);
  }

  lemma DocsLoopDirSubDirs(fs: FileSystem, ls: seq<Entry>, i: nat)
    requires i < |ls| && IsDir(fs, ls[i].path)
    ensures SubDirs(fs, ls[..i + 1]) == SubDirs(fs, ls[..i]) + [ls[i]]
  {
    assert ls[..i + 1][..i] == ls[..i];
  }

  /** One turn of the loop of main over an entry `ls[i]` that is not a
      directory: it is skipped. */
  lemma DocsLoopFile(fs: FileSystem, ls: seq<Entry>, i: nat)
    requires i < |ls| && !IsDir(fs, ls[i].path)
    ensures SubDirs(fs, ls[..i + 1]) == SubDirs(fs, ls[..i])
  {
    assert ls[..i + 1][..i] == ls[..i];
  }

  /** The entries whose images a successful main processes: those of the
      subdirectories when there are any, else those of `dir` itself. */
  function Processed(fs: FileSystem, dir: string): (r: seq<Entry>)
    requires IsDir(fs, dir)
  {
    var subs := SubDirs(fs, fs.dirs[dir]);
    if subs == [] then fs.dirs[dir] else Listed(fs, subs)
  }

  /** The documents of `dir` are well defined under the cache `m`. */
  ghost predicate Ready(fs: FileSystem, dir: string, m: map<string, string>) {
    && IsDir(fs, dir)
    && var subs := SubDirs(fs, fs.dirs[dir]);
       if subs == [] then JpgPaths(fs.dirs[dir]) <= m.Keys else Covered(fs, subs, m)
  }

  /** What a successful main has built from `dir`, taking the cache from
      `c0` to `c` and the uploads from `u0` to `u`: the images of the
      processed folders went through the cache-or-upload loop. When `dir`
      has subdirectories there is one document per subdirectory, the printed
      field count is 0, and each upload is of an image of one subdirectory,
      keyed under that subdirectory's name. Otherwise `dir` itself is the
      only document, the count is the number of its images, and every upload
      is keyed under the name of `dir`. */
  ghost predicate RequestBuilt(fs: FileSystem, dir: string, docType: string,
                               c0: map<string, string>, c: map<string, string>,
                               u0: seq<Upload>, u: seq<Upload>,
                               documents: seq<Document>, fieldsCount: nat)
  {
    && IsDir(fs, dir)
    && CachedRun(c0, c, u0, u, Processed(fs, dir))
    && Ready(fs, dir, c)
    && var subs := SubDirs(fs, fs.dirs[dir]);
       if subs != [] then
         documents == Docs(fs, subs, docType, c) && fieldsCount == 0 &&
         KeysPerFolder(fs, subs, u0, u)
       else
         documents == [Document(dir, docType, Fields(fs.dirs[dir], c))] &&
         fieldsCount == |Jpgs(fs.dirs[dir])| &&
         KeysUnder(u0, u, BaseName(dir) + "/")
  }

  /** The branch of main where `dir` has subdirectories. */
  lemma SubDirsBranch(fs: FileSystem, dir: string, docType: string,
                      c0: map<string, string>, c: map<string, string>,
                      u0: seq<Upload>, u: seq<Upload>, documents: seq<Document>)
    requires IsDir(fs, dir)
    requires SubDirs(fs, fs.dirs[dir]) != []
    requires DocsBuilt(fs, SubDirs(fs, fs.dirs[dir]), docType, c0, c, u0, u, documents)
    ensures RequestBuilt(fs, dir, docType, c0, c, u0, u, documents, 0)
  {
  }

  /** A run over an empty listing records no upload. */
  lemma EmptyRunUploadsNothing(c0: map<string, string>, c1: map<string, string>, u0: seq<Upload>, u1: seq<Upload>)
    requires CachedRun(c0, c1, u0, u1, [])
    ensures u1 == u0
  {
    assert |LocalPaths(u1[|u0|..])| == 0;
    assert u1 == u1[..|u0|];
  }

  /** The branch of main where `dir` has no subdirectory: the loop over the
      listing changed nothing, and fields_from_dir then ran on `dir`. */
  lemma FolderBranch(fs: FileSystem, dir: string, docType: string,
                     c0: map<string, string>, c1: map<string, string>, c: map<string, string>,
                     u0: seq<Upload>, u1: seq<Upload>, u: seq<Upload>, fields: seq<Field>)
    requires IsDir(fs, dir)
    requires SubDirs(fs, fs.dirs[dir]) == []
    requires CachedRun(c0, c1, u0, u1, [])
    requires CachedRun(c1, c, u1, u, fs.dirs[dir])
    requires KeysUnder(u1, u, BaseName(dir) + "/")
    requires fields == Fields(fs.dirs[dir], c)
    ensures RequestBuilt(fs, dir, docType, c0, c, u0, u, [Document(dir, docType, fields)], |fields|)
  {
    var ls := fs.dirs[dir];
    EmptyRunUploadsNothing(c0, c1, u0, u1);
    CachedRunCompose(c0, c1, c, u0, u1, u, [], ls);
    FieldsMatchJpgs(ls, c);
    assert [] + ls == ls;
  }

  // ---------------------------------------------------------------------
  // The client

  class Client {
    /** The process-wide path-to-URL cache. */
    var cache: map<string, string>
    /** How many identifiers uuid.uuid1() has handed out so far. */
    var issued: nat
    /** The bucket images are uploaded to. */
    const store: ObjectStore

    constructor (cache: map<string, string>, store: ObjectStore)
      ensures this.cache == cache && this.store == store && issued == 0
    {
      this.cache := cache;
      this.store := store;
      issued := 0;
    }

    /** `uuid.uuid1().__str__()`: a fresh identifier; its text is not modelled. */
    method NextUuid() returns (id: string)
      modifies this`issued
      ensures issued == old(issued) + 1
    {
      id := "uuid";
      issued := issued + 1;
    }

    /** The cache-or-upload step of fields_from_dir for one image: a cached
        path gives its cached URL and nothing else happens; otherwise the file
        is uploaded once under `key` and the URL it gets is cached. */
    method GetOrUpload(path: string, key: string) returns (url: string)
      modifies this`cache, store
      ensures path in old(cache) ==>
        url == old(cache)[path] && cache == old(cache) && store.uploads == old(store.uploads)
      ensures path !in old(cache) ==>
        cache == old(cache)[path := url] && store.uploads == old(store.uploads) + [Upload(path, key, OneYear, url)]
    {
      if path in cache {
        url := cache[path];
      } else {
        url := store.UploadAndPresign(path, key);
        cache := cache[path := url];
      }
    }

    /** fields_from_dir: one field per `.jpg` entry of `dir`, in listing
        order, each carrying the cached URL of its path, uploading under the
        key `dirName/<uuid>` the images the cache does not know. A path that
        is not a directory raises before anything changes. */
    method FieldsFromDir(fs: FileSystem, dir: string, dirName: string) returns (r: Result<seq<Field>>)
      modifies this, store
      ensures r.Ok? <==> IsDir(fs, dir)
      ensures r.Err? ==> r.error == (if dir in fs.files then NotADirectory(dir) else FileNotFound(dir))
      ensures r.Err? ==> cache == old(cache) && store.uploads == old(store.uploads) && issued == old(issued)
      ensures r.Ok? ==> CachedRun(old(cache), cache, old(store.uploads), store.uploads, fs.dirs[dir])
      ensures r.Ok? ==> r.value == Fields(fs.dirs[dir], cache)
      ensures r.Ok? ==> issued == old(issued) + |Jpgs(fs.dirs[dir])|
      ensures KeysUnder(old(store.uploads), store.uploads, dirName + "/")
    {
      var listing := IterDir(fs, dir);
      if listing.Err? {
        return Err(listing.error);
      }
      var es := listing.value;
      ghost var c0, u0, n0 := cache, store.uploads, issued;
      var fields: seq<Field> := [];
      var i := 0;
      while i < |es|
        invariant 0 <= i <= |es|
        invariant CachedRun(c0, cache, u0, store.uploads, es[..i])
        invariant fields == Fields(es[..i], cache)
        invariant issued == n0 + |Jpgs(es[..i])|
        invariant KeysUnder(u0, store.uploads, dirName + "/")
      {
        var file := es[i];
        if IsJpg(file.name) {
          var id := NextUuid();
          var key := dirName + "/" + id;
          ghost var c1, u1 := cache, store.uploads;
          var url := GetOrUpload(file.path, key);
          LoopJpg(c0, c1, cache, u0, u1, store.uploads, es, i, dirName + "/", key, url);
          fields := fields + [Field(FieldName(file.name), url)];
        } else {
          LoopSkip(c0, cache, u0, store.uploads, es, i);
        }
        i := i + 1;
      }
      assert es[..i] == es;
      return Ok(fields);
    }

    /** The loop of main over the listing `ls` of its input folder: one
        document per subdirectory, in listing order, with the fields
        fields_from_dir builds for it. */
    method DocumentsOfSubDirs(fs: FileSystem, ls: seq<Entry>, docType: string) returns (documents: seq<Document>)
      modifies this, store
      ensures DocsBuilt(fs, SubDirs(fs, ls), docType, old(cache), cache, old(store.uploads), store.uploads, documents)
      ensures issued == old(issued) + |Jpgs(Listed(fs, SubDirs(fs, ls)))|
    {
      ghost var c0, u0, n0 := cache, store.uploads, issued;
      documents := [];
      var i := 0;
      while i < |ls|
        invariant 0 <= i <= |ls|
        invariant DocsBuilt(fs, SubDirs(fs, ls[..i]), docType, c0, cache, u0, store.uploads, documents)
        invariant issued == n0 + |Jpgs(Listed(fs, SubDirs(fs, ls[..i])))|
      {
        var doc := ls[i];
        if IsDir(fs, doc.path) {
          ghost var c1, u1 := cache, store.uploads;
          var res := FieldsFromDir(fs, doc.path, doc.name);
          DocsLoopDir(fs, ls, i, docType, c0, c1, cache, u0, u1, store.uploads, documents, res.value);
          documents := documents + [Document(doc.path, docType, res.value)];
        } else {
          DocsLoopFile(fs, ls, i);
        }
        i := i + 1;
      }
      assert ls[..i] == ls;
    }

    /** The document-collecting part of main, once `dir` is known to be a directory with
        listing `ls`: each subdirectory becomes a document, in listing
        order; when there is none, `dir` itself becomes the only document,
        and `fields` (whose length main prints) holds its fields. */
    method CollectDocuments(fs: FileSystem, dir: string, ls: seq<Entry>, docType: string)
        returns (documents: seq<Document>, fields: seq<Field>)
      requires IsDir(fs, dir) && ls == fs.dirs[dir]
      modifies this, store
      ensures RequestBuilt(fs, dir, docType, old(cache), cache, old(store.uploads), store.uploads, documents, |fields|)
      ensures issued == old(issued) + |Jpgs(Processed(fs, dir))|
    {
      ghost var c0, u0 := cache, store.uploads;
      fields := [];
      documents := DocumentsOfSubDirs(fs, ls, docType);
      DocsMatchSubDirs(fs, SubDirs(fs, ls), docType, cache);
      if documents == [] {
        ghost var c1, u1 := cache, store.uploads;
        var res := FieldsFromDir(fs, dir, BaseName(dir));
        fields := res.value;
        documents := [Document(dir, docType, fields)];
        FolderBranch(fs, dir, docType, c0, c1, cache, u0, u1, store.uploads, fields);
      } else {
        SubDirsBranch(fs, dir, docType, c0, cache, u0, store.uploads, documents);
      }
    }

    /** main up to the request it sends: a missing `dir` raises
        FileNotFoundError and a `dir` that is a regular file
        NotADirectoryError, before anything changes; otherwise the documents
        are collected and wrapped in a request with one more identifier
        drawn and the `force` flag as given. */
    method BuildRequest(fs: FileSystem, dir: string, docType: string, force: bool) returns (r: Result<Submission>)
      modifies this, store
      ensures r.Ok? <==> IsDir(fs, dir)
      ensures !Exists(fs, dir) ==> r == Err(FileNotFound(dir))
      ensures Exists(fs, dir) && !IsDir(fs, dir) ==> r == Err(NotADirectory(dir))
      ensures r.Err? ==> cache == old(cache) && store.uploads == old(store.uploads) && issued == old(issued)
      ensures r.Ok? ==> r.value.request.force == force
      ensures r.Ok? ==> RequestBuilt(fs, dir, docType, old(cache), cache, old(store.uploads), store.uploads,
                                     r.value.request.documents, r.value.fieldsCount)
      ensures r.Ok? ==> issued == old(issued) + |Jpgs(Processed(fs, dir))| + 1
    {
      if !Exists(fs, dir) {
        return Err(FileNotFound(dir));
      }
      var listing := IterDir(fs, dir);
      if listing.Err? {
        return Err(listing.error);
      }
      var documents, fields := CollectDocuments(fs, dir, listing.value, docType);
      var id := NextUuid();
      r := Ok(Submission(Request(id, force, documents), |fields|));
    }

    /** Building the request twice from an unchanged filesystem: the second
        run uploads nothing, leaves the cache as the first run left it and
        emits the same documents, with the same URLs, and the same field
        count. */
    method BuildRequestTwice(fs: FileSystem, dir: string, docType: string, force: bool)
        returns (r1: Result<Submission>, r2: Result<Submission>)
      modifies this, store
      ensures r1.Ok? <==> IsDir(fs, dir)
      ensures r1.Err? ==> r2 == r1
      ensures r1.Ok? ==>
        && r2.Ok?
        && RequestBuilt(fs, dir, docType, old(cache), cache, old(store.uploads), store.uploads,
                        r1.value.request.documents, r1.value.fieldsCount)
        && r2.value.request.documents == r1.value.request.documents
        && r2.value.request.force == r1.value.request.force
        && r2.value.fieldsCount == r1.value.fieldsCount
    {
      ghost var c0, u0 := cache, store.uploads;
      r1 := BuildRequest(fs, dir, docType, force);
      ghost var c1, u1 := cache, store.uploads;
      r2 := BuildRequest(fs, dir, docType, force);
      if r1.Ok? {
        SecondRunIsIdempotent(c0, c1, cache, u0, u1, store.uploads, Processed(fs, dir));
      }
    }

    /** Calling fields_from_dir twice on the same folder returns the same
        fields twice and leaves the cache and the uploads as the first call
        alone does; only the uuids drawn, one per image, are drawn again. */
    method FieldsFromDirTwice(fs: FileSystem, dir: string, dirName: string)
        returns (first: Result<seq<Field>>, second: Result<seq<Field>>)
      modifies this, store
      ensures first.Ok? <==> IsDir(fs, dir)
      ensures second == first
      ensures first.Ok? ==> CachedRun(old(cache), cache, old(store.uploads), store.uploads, fs.dirs[dir])
      ensures first.Ok? ==> issued == old(issued) + 2 * |Jpgs(fs.dirs[dir])|
    {
      ghost var c0, u0 := cache, store.uploads;
      first := FieldsFromDir(fs, dir, dirName);
      ghost var c1, u1 := cache, store.uploads;
      second := FieldsFromDir(fs, dir, dirName);
      if first.Ok? {
        SecondRunIsIdempotent(c0, c1, cache, u0, u1, store.uploads, fs.dirs[dir]);
      }
    }
  }
}
